/** The rows of one TaskRun and the transactions that write them. `Apply` is the specification: it says
    what each transaction leaves behind, with nothing that a reachable state makes superfluous. */
module TaskRun {
  import opened Wrappers

  // ---------------------------------------------------------------- rows

  datatype Status = Running | WaitingInput | Interrupted | Blocked | Failed | Completed | Cancelled | Superseded

  type RunStatus = s: Status | s != Superseded witness Running

  /** Why an attempt exists (`trigger`) and why it was projected (`scenario`). */
  datatype Cause = ByInitial | ByResume | ByContinuation | ByRetry | ByInput | ByRecovery | ByTerminal

  datatype RunRow = RunRow(status: RunStatus, attempt: nat, lastSeq: nat)

  datatype AttemptRow = AttemptRow(trigger: Cause, status: Status, active: bool, version: nat, eventSeq: nat)

  datatype AuditRow = AuditRow(
    ordinal: nat, from: Option<Status>, to: Status, trigger: Cause, scenario: Cause, version: nat, eventSeq: nat)

  /** `Timeout` is an idle or hard timeout; `Launch` a failed runtime initialization. */
  datatype FailReason = Timeout | Launch(retryable: bool) | OtherReason

  datatype EventKind =
    | RunCompleted
    | RunBlocked
    | RunCancelled
    | RunFailed(reason: FailReason)
    | WaitingForInput
    | RestartInterruption
    | ContinuationQueued(safe: bool)
    | ContinuationStarted(continuation: nat)
    | HandoffPrepared(request: nat, continuation: nat)
    | ActivationResult(request: nat, result: nat)
    | OtherEvent

  datatype EventRow = EventRow(seqNo: nat, ordinal: nat, kind: EventKind)

  datatype ContinuationStatus = Queued | Leased | Closed

  /** `owner` is 0 and `leaseUntil` None while no lease is held. */
  datatype Continuation = Continuation(
    ordinal: nat, status: ContinuationStatus, notBefore: int, owner: nat, leaseUntil: Option<int>)

  datatype InputRow = InputRow(attempt: nat, pending: bool)

  datatype Task = Task(
    run: RunRow, attempts: map<nat, AttemptRow>, audit: seq<AuditRow>, events: seq<EventRow>,
    conts: seq<Continuation>, inputs: seq<InputRow>)

  // ---------------------------------------------------------------- building blocks

  function Log(t: Task, ordinal: nat, kind: EventKind): Task {
    t.(run := t.run.(lastSeq := t.run.lastSeq + 1), events := t.events + [EventRow(t.run.lastSeq + 1, ordinal, kind)])
  }

  function Projected(before: Option<AttemptRow>, trigger: Cause, status: Status, eventSeq: nat): AttemptRow {
    match before
    case None => AttemptRow(trigger, status, status.Running?, 1, eventSeq)
    case Some(a) => AttemptRow(a.trigger, status, status.Running?, a.version + 1, eventSeq)
  }

  function Lookup<K, V>(m: map<K, V>, k: K): Option<V> {
    if k in m then Some(m[k]) else None
  }

  function StatusOf(a: Option<AttemptRow>): Option<Status> {
    if a.Some? then Some(a.value.status) else None
  }

  /** Set one attempt row and write its audit row; no other attempt changes. */
  function Project(t: Task, ordinal: nat, trigger: Cause, status: Status, scenario: Cause): Task {
    var before := Lookup(t.attempts, ordinal);
    var row := Projected(before, trigger, status, t.run.lastSeq);
    t.(attempts := t.attempts[ordinal := row],
       audit := t.audit
         + [AuditRow(ordinal, StatusOf(before), status, row.trigger, scenario, row.version, t.run.lastSeq)])
  }

  function SetStatus(t: Task, status: RunStatus): Task {
    t.(run := t.run.(status := status))
  }

  /** Start the next attempt. */
  function Advance(t: Task, trigger: Cause): Task {
    var next := t.(run := t.run.(status := Running, attempt := t.run.attempt + 1));
    Project(next, next.run.attempt, trigger, Running, trigger)
  }

  predicate Active(c: Continuation) {
    c.status.Queued? || c.status.Leased?
  }

  predicate NoneActive(conts: seq<Continuation>) {
    forall i :: 0 <= i < |conts| ==> !Active(conts[i])
  }

  /** The index of the active continuation, if there is one, else the length. */
  function ActiveIndex(conts: seq<Continuation>): (i: nat)
    ensures i <= |conts|
    ensures i < |conts| ==> Active(conts[i])
    ensures forall k :: 0 <= k < i ==> !Active(conts[k])
  {
    if conts == [] then 0 else if Active(conts[0]) then 0 else 1 + ActiveIndex(conts[1..])
  }

  function Enqueue(t: Task, notBefore: int): Task {
    t.(conts := t.conts + [Continuation(|t.conts| + 1, Queued, notBefore, 0, None)])
  }

  /** Give a lease back: queued again, and the run waits for the next claim. */
  function Requeue(t: Task, i: nat): Task
    requires i < |t.conts|
  {
    var q := t.(conts := t.conts[i := t.conts[i].(status := Queued, owner := 0, leaseUntil := None)]);
    var b := if q.run.status in {Running, Interrupted, Blocked} then SetStatus(q, Blocked) else q;
    Project(b, b.run.attempt, ByRecovery, Blocked, ByRecovery)
  }

  predicate HeldBy(t: Task, i: nat, owner: nat) {
    i < |t.conts| && t.conts[i].status.Leased? && t.conts[i].owner == owner
  }

  predicate Expired(t: Task, i: nat, now: int) {
    i < |t.conts| && t.conts[i].status.Leased? && (t.conts[i].leaseUntil.None? || t.conts[i].leaseUntil.value <= now)
  }

  // ---------------------------------------------------------------- what the guards read

  predicate PendingInput(t: Task) {
    exists i :: 0 <= i < |t.inputs| && t.inputs[i].pending
  }

  predicate SubmittedFor(t: Task, attempt: nat) {
    exists i :: 0 <= i < |t.inputs| && !t.inputs[i].pending && t.inputs[i].attempt == attempt
  }

  predicate TimedOut(t: Task) {
    exists i :: 0 <= i < |t.events| && t.events[i].ordinal == t.run.attempt && t.events[i].kind == RunFailed(Timeout)
  }

  predicate Resumable(t: Task) {
    t.run.status in {Interrupted, Blocked} || (t.run.status.Failed? && TimedOut(t))
  }

  /** The newest run.failed event is a retryable launch failure. */
  predicate LaunchRetryable(events: seq<EventRow>) {
    exists i :: 0 <= i < |events| && events[i].kind == RunFailed(Launch(true))
                && forall j :: i < j < |events| ==> !events[j].kind.RunFailed?
  }

  predicate WasInterrupted(t: Task) {
    exists i :: 0 <= i < |t.events| && t.events[i].kind.RestartInterruption?
  }

  function SafeCount(events: seq<EventRow>): nat {
    if events == [] then 0
    else SafeCount(events[..|events| - 1]) + if events[|events| - 1].kind == ContinuationQueued(true) then 1 else 0
  }

  predicate HandedOff(t: Task, request: nat) {
    exists i :: 0 <= i < |t.events| && t.events[i].kind.HandoffPrepared? && t.events[i].kind.request == request
  }

  predicate Answered(t: Task, request: nat) {
    exists i :: 0 <= i < |t.events| && t.events[i].kind.ActivationResult? && t.events[i].kind.request == request
  }

  // ---------------------------------------------------------------- transactions

  /** `sessionBusy` and `launchable` stand for guards over other rows of the session and the inbox,
      `safe` for the guards over the run's external work. */
  datatype Step =
    | Transition(expected: set<RunStatus>, next: RunStatus, kind: EventKind, expectedAttempt: Option<nat>)
    | RequestInput
    | SubmitInput(input: nat)
    | Resume
    | Retry(launchable: bool)
    | Interrupt
    | Append(kind: EventKind)
    | QueueContinuation(notBefore: int)
    | Claim(owner: nat, lease: int, now: int, sessionBusy: bool)
    | Renew(index: nat, owner: nat, lease: int, now: int)
    | Release(index: nat, owner: nat)
    | ReleaseAll(owner: nat)
    | RecoverLease(now: int)
    | CloseContinuation(index: nat, owner: nat)
    | CancelQueued
    | Handoff(request: nat)
    | RecordActivation(request: nat, result: nat)
    | QueueSafe(safe: bool, max: nat)

  predicate Claimable(t: Task, now: int, sessionBusy: bool) {
    var i := ActiveIndex(t.conts);
    i < |t.conts| && t.conts[i].status.Queued? && t.conts[i].notBefore <= now && t.run.status.Blocked? && !sessionBusy
  }

  predicate Enabled(t: Task, s: Step) {
    match s
    case Transition(expected, next, kind, expectedAttempt) =>
      t.run.status in expected && (expectedAttempt.Some? ==> expectedAttempt.value == t.run.attempt)
    case RequestInput => t.run.status.Running? && !PendingInput(t)
    case SubmitInput(i) => i < |t.inputs| && t.inputs[i].pending
    case Resume => (Resumable(t) || t.run.status.WaitingInput?) && !(t.run.status.WaitingInput? && PendingInput(t))
    case Retry(launchable) => launchable && t.run.status.Failed? && LaunchRetryable(t.events)
    case Interrupt => t.run.status.Running?
    case Append(_) => true
    case QueueContinuation(_) => NoneActive(t.conts)
    case Claim(_, _, now, sessionBusy) => Claimable(t, now, sessionBusy)
    case Renew(i, owner, _, now) => HeldBy(t, i, owner) && !Expired(t, i, now)
    case Release(i, owner) => HeldBy(t, i, owner)
    case ReleaseAll(owner) => HeldBy(t, ActiveIndex(t.conts), owner)
    case RecoverLease(now) => Expired(t, ActiveIndex(t.conts), now)
    case CloseContinuation(i, owner) => i < |t.conts| && Active(t.conts[i]) && t.conts[i].owner == owner
    case CancelQueued => ActiveIndex(t.conts) < |t.conts| && t.conts[ActiveIndex(t.conts)].status.Queued?
    case Handoff(request) => !HandedOff(t, request)
      && t.run.status in {Running, Interrupted, Blocked, Completed, Failed}
    case RecordActivation(request, _) => !Answered(t, request)
    case QueueSafe(safe, max) =>
      t.run.status.Interrupted? && WasInterrupted(t) && safe && NoneActive(t.conts) && SafeCount(t.events) < max
  }

  function Claimed(t: Task, i: nat, owner: nat, until: int): Task
    requires i < |t.conts|
  {
    var c := t.(conts := t.conts[i := t.conts[i].(status := Leased, owner := owner, leaseUntil := Some(until))]);
    Advance(Log(c, t.run.attempt + 1, ContinuationStarted(i)), ByContinuation)
  }

  function Closing(t: Task, i: nat): Task
    requires i < |t.conts|
  {
    t.(conts := t.conts[i := t.conts[i].(status := Closed, owner := 0, leaseUntil := None)])
  }

  function Block(t: Task, kind: EventKind): Task {
    Project(SetStatus(Log(t, t.run.attempt, kind), Blocked), t.run.attempt, ByRecovery, Blocked, ByRecovery)
  }

  function Effect(t: Task, s: Step): Task
    requires Enabled(t, s)
  {
    match s
    case Transition(_, next, kind, _) =>
      Project(SetStatus(Log(t, t.run.attempt, kind), next), t.run.attempt, ByRecovery, next,
              if next.Running? then ByRecovery else ByTerminal)
    case RequestInput =>
      var l := SetStatus(Log(t, t.run.attempt, WaitingForInput), WaitingInput)
               .(inputs := t.inputs + [InputRow(t.run.attempt, true)]);
      Project(l, t.run.attempt, ByInput, WaitingInput, ByInput)
    case SubmitInput(i) => t.(inputs := t.inputs[i := t.inputs[i].(pending := false)])
    case Resume => Advance(t, if SubmittedFor(t, t.run.attempt) then ByInput else ByResume)
    case Retry(_) => Advance(t, ByRetry)
    case Interrupt =>
      Project(SetStatus(Log(t, t.run.attempt, RestartInterruption), Interrupted), t.run.attempt, ByRecovery,
              Interrupted, ByRecovery)
    case Append(kind) => Log(t, t.run.attempt, kind)
    case QueueContinuation(notBefore) => Enqueue(t, if notBefore < 0 then 0 else notBefore)
    case Claim(owner, lease, now, _) => Claimed(t, ActiveIndex(t.conts), owner, now + lease)
    case Renew(i, _, lease, now) => t.(conts := t.conts[i := t.conts[i].(leaseUntil := Some(now + lease))])
    case Release(i, _) => Requeue(t, i)
    case ReleaseAll(_) => Requeue(t, ActiveIndex(t.conts))
    case RecoverLease(_) => Requeue(t, ActiveIndex(t.conts))
    case CloseContinuation(i, _) => Closing(t, i)
    case CancelQueued =>
      var i := ActiveIndex(t.conts);
      t.(conts := t.conts[i := t.conts[i].(status := Closed)])
    case Handoff(request) =>
      var c := if NoneActive(t.conts) then Enqueue(t, 0) else t;
      Block(c, HandoffPrepared(request, ActiveIndex(c.conts)))
    case RecordActivation(request, result) => Log(t, t.run.attempt, ActivationResult(request, result))
    case QueueSafe(_, _) => Block(Enqueue(t, 0), ContinuationQueued(true))
  }

  /** A transaction whose guard fails returns early or throws; either way nothing is written. */
  function Apply(t: Task, s: Step): Task {
    if Enabled(t, s) then Effect(t, s) else t
  }

  function Replay(t: Task, steps: seq<Step>): Task
    decreases |steps|
  {
    if steps == [] then t else Replay(Apply(t, steps[0]), steps[1..])
  }

  /** `createRun`. */
  function Created(): Task {
    Project(Task(RunRow(Running, 1, 0), map[], [], [], [], []), 1, ByInitial, Running, ByInitial)
  }

  // ---------------------------------------------------------------- run and attempts agree

  /** Attempts are numbered 1 to `run.attempt`; only the last can be active, and is exactly while the run
      is running. Its status is the run's, or blocked where a lease was taken back after the run had moved on. */
  ghost predicate Coherent(t: Task) {
    && 1 <= t.run.attempt
    && (forall o :: o in t.attempts <==> 1 <= o <= t.run.attempt)
    && (forall o :: o in t.attempts ==> (t.attempts[o].active <==> o == t.run.attempt && t.run.status.Running?))
    && (forall o :: o in t.attempts ==> (t.attempts[o].active <==> t.attempts[o].status.Running?))
    && (t.attempts[t.run.attempt].status == t.run.status || t.attempts[t.run.attempt].status.Blocked?)
  }

  lemma StepCoherent(t: Task, s: Step)
    requires Coherent(t) && Enabled(t, s)
    ensures Coherent(Effect(t, s))
  {
    hide ActiveIndex, SafeCount, PendingInput, SubmittedFor, TimedOut, LaunchRetryable, WasInterrupted,
      HandedOff, Answered;
  }

  // ---------------------------------------------------------------- the audit is complete

  /** Replay the audit trail into an attempts table. */
  function Rebuild(audit: seq<AuditRow>): map<nat, AttemptRow> {
    if audit == [] then map[]
    else
      var a := audit[|audit| - 1];
      Rebuild(audit[..|audit| - 1])[a.ordinal := AttemptRow(a.trigger, a.to, a.to.Running?, a.version, a.eventSeq)]
  }

  /** Each row starts from the status and version the previous rows left. */
  predicate Chained(audit: seq<AuditRow>) {
    forall i :: 0 <= i < |audit| ==>
      var before := Lookup(Rebuild(audit[..i]), audit[i].ordinal);
      && audit[i].from == StatusOf(before)
      && audit[i].version == (if before.None? then 1 else before.value.version + 1)
      && (before.Some? ==> audit[i].trigger == before.value.trigger)
  }

  predicate Audited(t: Task) {
    Rebuild(t.audit) == t.attempts && Chained(t.audit)
  }

  lemma ChainedAppend(audit: seq<AuditRow>, a: AuditRow)
    requires Chained(audit)
    requires var before := Lookup(Rebuild(audit), a.ordinal);
             && a.from == StatusOf(before)
             && a.version == (if before.None? then 1 else before.value.version + 1)
             && (before.Some? ==> a.trigger == before.value.trigger)
    ensures Chained(audit + [a])
  {
    var more := audit + [a];
    assert more[..|audit|] == audit;
    forall i | 0 <= i < |audit| ensures more[..i] == audit[..i] {
    }
  }

  lemma ProjectAudited(t: Task, ordinal: nat, trigger: Cause, status: Status, scenario: Cause)
    requires Audited(t)
    ensures Audited(Project(t, ordinal, trigger, status, scenario))
  {
    hide Chained;
    var p := Project(t, ordinal, trigger, status, scenario);
    ChainedAppend(t.audit, p.audit[|t.audit|]);
    assert p.audit == t.audit + [p.audit[|t.audit|]];
    assert p.audit[..|t.audit|] == t.audit;
  }

  lemma StepAudited(t: Task, s: Step)
    requires Audited(t) && Enabled(t, s)
    ensures Audited(Effect(t, s))
  {
    hide Audited, Project, ActiveIndex, SafeCount;
    assert forall ordinal, trigger, status, scenario, u: Task :: u.attempts == t.attempts && u.audit == t.audit ==>
      Audited(Project(u, ordinal, trigger, status, scenario)) by {
      forall ordinal, trigger, status, scenario, u: Task | u.attempts == t.attempts && u.audit == t.audit
        ensures Audited(Project(u, ordinal, trigger, status, scenario))
      {
        SameAudited(t, u);
        ProjectAudited(u, ordinal, trigger, status, scenario);
      }
    }
    if s.SubmitInput? || s.Append? || s.QueueContinuation? || s.Renew? || s.CloseContinuation? || s.CancelQueued?
      || s.RecordActivation? {
      SameAudited(t, Effect(t, s));
    }
  }

  lemma SameAudited(t: Task, u: Task)
    requires Audited(t) && u.attempts == t.attempts && u.audit == t.audit
    ensures Audited(u)
  {
  }

  // ---------------------------------------------------------------- the event log is dense

  predicate Dense(t: Task) {
    && t.run.lastSeq == |t.events|
    && (forall i :: 0 <= i < |t.events| ==> t.events[i].seqNo == i + 1 && 1 <= t.events[i].ordinal <= t.run.attempt)
    && (forall i, j :: 0 <= i < j < |t.events| ==> t.events[i].ordinal <= t.events[j].ordinal)
  }

  lemma StepDense(t: Task, s: Step)
    requires Dense(t) && 1 <= t.run.attempt && Enabled(t, s)
    ensures Dense(Effect(t, s))
  {
    hide ActiveIndex, SafeCount;
  }

  // ---------------------------------------------------------------- one active continuation

  predicate OneActive(conts: seq<Continuation>) {
    && (forall i :: 0 <= i < |conts| ==> conts[i].ordinal == i + 1)
    && (forall i, j :: 0 <= i < |conts| && 0 <= j < |conts| && Active(conts[i]) && Active(conts[j]) ==> i == j)
    && (forall i :: 0 <= i < |conts| ==> (conts[i].status.Leased? <==> conts[i].leaseUntil.Some?))
  }

  lemma Replaced(conts: seq<Continuation>, i: nat, c: Continuation)
    requires OneActive(conts) && i < |conts| && (Active(c) ==> Active(conts[i]))
    requires c.ordinal == conts[i].ordinal && (c.status.Leased? <==> c.leaseUntil.Some?)
    ensures OneActive(conts[i := c])
  {
  }

  lemma Enqueued(t: Task, notBefore: int)
    requires OneActive(t.conts) && NoneActive(t.conts)
    ensures OneActive(Enqueue(t, notBefore).conts)
  {
  }

  lemma StepOneActive(t: Task, s: Step)
    requires OneActive(t.conts) && Enabled(t, s)
    ensures OneActive(Effect(t, s).conts)
  {
    assert forall i :: 0 <= i < |t.conts| ==> (t.conts[i].status.Leased? <==> t.conts[i].leaseUntil.Some?);
    hide SafeCount, Lookup, Projected, StatusOf, OneActive, PendingInput, SubmittedFor, Resumable, LaunchRetryable,
      HandedOff, Answered;
    var n := ActiveIndex(t.conts);
    match s
    case QueueContinuation(notBefore) => Enqueued(t, if notBefore < 0 then 0 else notBefore);
    case Claim(owner, lease, now, _) =>
      Replaced(t.conts, n, t.conts[n].(status := Leased, owner := owner, leaseUntil := Some(now + lease)));
    case Renew(i, _, lease, now) => Replaced(t.conts, i, t.conts[i].(leaseUntil := Some(now + lease)));
    case Release(i, _) => Replaced(t.conts, i, t.conts[i].(status := Queued, owner := 0, leaseUntil := None));
    case ReleaseAll(_) => Replaced(t.conts, n, t.conts[n].(status := Queued, owner := 0, leaseUntil := None));
    case RecoverLease(_) => Replaced(t.conts, n, t.conts[n].(status := Queued, owner := 0, leaseUntil := None));
    case CloseContinuation(i, _) => Replaced(t.conts, i, t.conts[i].(status := Closed, owner := 0, leaseUntil := None));
    case CancelQueued => Replaced(t.conts, n, t.conts[n].(status := Closed));
    case Handoff(_) => if NoneActive(t.conts) { Enqueued(t, 0); }
    case QueueSafe(_, _) => Enqueued(t, 0);
    case _ =>
  }

  // ---------------------------------------------------------------- every run of transactions

  ghost predicate Valid(t: Task) {
    Coherent(t) && Audited(t) && Dense(t) && OneActive(t.conts)
  }

  /** Attempts only go up and the audit and event logs only grow. */
  predicate Progress(t: Task, u: Task) {
    t.run.attempt <= u.run.attempt && t.events <= u.events && t.audit <= u.audit && |t.conts| <= |u.conts|
  }

  lemma StepProgress(t: Task, s: Step)
    requires Enabled(t, s)
    ensures Progress(t, Effect(t, s))
  {
    hide SafeCount, ActiveIndex;
  }

  lemma StepKeeps(t: Task, s: Step)
    requires Valid(t)
    ensures Valid(Apply(t, s)) && Progress(t, Apply(t, s))
  {
    assert 1 <= t.run.attempt;
    hide Coherent, Audited, Dense, OneActive, Enabled, Progress, Effect;
    if Enabled(t, s) {
      StepCoherent(t, s);
      StepAudited(t, s);
      StepDense(t, s);
      StepOneActive(t, s);
      StepProgress(t, s);
    } else {
      ProgressItself(t);
    }
  }

  lemma ProgressItself(t: Task)
    ensures Progress(t, t)
  {
  }

  lemma CreatedValid()
    ensures Valid(Created())
  {
    assert Created().audit[..0] == [];
  }

  lemma {:induction false} ReplayKeeps(t: Task, steps: seq<Step>)
    requires Valid(t)
    ensures Valid(Replay(t, steps)) && Progress(t, Replay(t, steps))
    decreases |steps|
  {
    hide Valid, Apply;
    if steps != [] {
      StepKeeps(t, steps[0]);
      ReplayKeeps(Apply(t, steps[0]), steps[1..]);
    }
  }

  /** Whatever transactions follow a run's creation: its attempts are exactly 1 to `run.attempt`, and one
      of them is active if and only if it is the last and the run is running; replaying the audit rebuilds
      every attempt; event seqs are 1 to last_event_seq with attempts that never go back; and at most one
      continuation is queued or leased. */
  lemma EveryHistoryAgrees(steps: seq<Step>)
    ensures var t := Replay(Created(), steps);
            && (forall o :: o in t.attempts <==> 1 <= o <= t.run.attempt)
            && (forall o :: o in t.attempts ==> (t.attempts[o].active <==> o == t.run.attempt && t.run.status.Running?))
            && Rebuild(t.audit) == t.attempts && Chained(t.audit)
            && t.run.lastSeq == |t.events|
            && (forall i :: 0 <= i < |t.events| ==> t.events[i].seqNo == i + 1)
            && (forall i, j :: 0 <= i < j < |t.events| ==> t.events[i].ordinal <= t.events[j].ordinal)
            && (forall i, j :: 0 <= i < j < |t.conts| ==> !(Active(t.conts[i]) && Active(t.conts[j])))
  {
    CreatedValid();
    ReplayKeeps(Created(), steps);
    assert Valid(Replay(Created(), steps));
    hide Replay, Rebuild, Chained, Created;
  }
}
