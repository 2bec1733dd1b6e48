/** Crash recovery of one run: what a restart does to the run's external work, and when a run that was
    interrupted is queued to continue by itself. */
module CrashRecovery {
  import opened Wrappers
  import opened TaskRun

  type Id = nat

  // ---------------------------------------------------------------- external work of a run

  datatype WorkStatus = Authorized | OpRunning | Settled | OpCancelled | OutcomeUnknown

  datatype OpStage = AuthorizationCommitted | EffectStarted | OtherStage

  /** `bound` says that the operation names its attempt. */
  datatype WorkOperation = WorkOperation(status: WorkStatus, stage: OpStage, bound: bool)

  datatype Delivery = Waiting | InProgress | Finished | Unknown

  datatype ApprovalRow = ApprovalRow(external: bool, pending: bool)

  /** `allowed` holds the operations with an append-only allow receipt; `external` is the run's contract. */
  datatype Work = Work(
    ops: map<Id, WorkOperation>, allowed: set<Id>, tools: map<Id, Delivery>, controls: map<Id, Delivery>,
    commands: map<Id, Delivery>, approvals: map<Id, ApprovalRow>, external: bool)

  predicate Capability(w: Work, id: Id) {
    id in w.ops && w.ops[id].bound && id in w.allowed
  }

  predicate TerminalOp(status: WorkStatus) {
    status.Settled? || status.OpCancelled? || status.OutcomeUnknown?
  }

  datatype WorkStep =
    | ClaimOperation(id: Id)
    | AuthorizeOperation(id: Id)
    | UpdateOperation(id: Id, status: WorkStatus, stage: OpStage)
    | AddAllowReceipt(id: Id)
    | StartTool(id: Id)
    | FinishTool(id: Id)
    | EnqueueControl(id: Id)
    | DeliverControl(id: Id)
    | FinishControl(id: Id)
    | StartCommand(id: Id)
    | SettleCommand(id: Id, unknown: bool)
    | AskApproval(id: Id, external: bool)
    | ResolveApproval(id: Id)

  function Insert<V>(m: map<Id, V>, id: Id, v: V): map<Id, V> {
    if id in m then m else m[id := v]
  }

  function Move(m: map<Id, Delivery>, id: Id, from: Delivery, to: Delivery): map<Id, Delivery> {
    if id in m && m[id] == from then m[id := to] else m
  }

  function DoWork(w: Work, s: WorkStep): Work {
    match s
    case ClaimOperation(id) => w.(ops := Insert(w.ops, id, WorkOperation(OpRunning, OtherStage, true)))
    case AuthorizeOperation(id) =>
      if id in w.ops then w
      else w.(ops := w.ops[id := WorkOperation(Authorized, AuthorizationCommitted, true)], allowed := w.allowed + {id})
    case UpdateOperation(id, status, stage) =>
      if id in w.ops && !TerminalOp(w.ops[id].status)
        then w.(ops := w.ops[id := w.ops[id].(status := status, stage := stage)]) else w
    case AddAllowReceipt(id) => w.(allowed := w.allowed + {id})
    case StartTool(id) => w.(tools := Insert(w.tools, id, InProgress))
    case FinishTool(id) => w.(tools := Move(w.tools, id, InProgress, Finished))
    case EnqueueControl(id) => w.(controls := Insert(w.controls, id, Waiting))
    case DeliverControl(id) => w.(controls := Move(w.controls, id, Waiting, InProgress))
    case FinishControl(id) => w.(controls := Move(w.controls, id, InProgress, Finished))
    case StartCommand(id) => w.(commands := Insert(w.commands, id, InProgress))
    case SettleCommand(id, unknown) =>
      w.(commands := Move(w.commands, id, InProgress, if unknown then Unknown else Finished))
    case AskApproval(id, external) => w.(approvals := Insert(w.approvals, id, ApprovalRow(external, true)))
    case ResolveApproval(id) =>
      if id in w.approvals then w.(approvals := w.approvals[id := w.approvals[id].(pending := false)]) else w
  }

  // ---------------------------------------------------------------- start-up transactions

  function Abandoned(m: map<Id, Delivery>): map<Id, Delivery> {
    map id | id in m :: if m[id].InProgress? then Unknown else m[id]
  }

  /** The sweep when the store is opened. */
  function Sweep(w: Work): Work {
    w.(commands := Abandoned(w.commands))
  }

  /** A capability operation that neither waits nor has started; start-up refuses to go on. */
  predicate Malformed(w: Work) {
    exists id :: id in w.ops && Capability(w, id) &&
      ((w.ops[id].status.Authorized? && !w.ops[id].stage.AuthorizationCommitted?)
       || (w.ops[id].status.OpRunning? && !w.ops[id].stage.EffectStarted?))
  }

  /** Authorized and not started, started, or over. */
  predicate Restartable(o: WorkOperation) {
    match o.status
    case Authorized => o.stage == AuthorizationCommitted
    case OpRunning => o.stage == EffectStarted
    case _ => true
  }

  function Reconciled(w: Work, id: Id): WorkOperation
    requires id in w.ops
  {
    var o := w.ops[id];
    if o.status.OpRunning? then o.(status := OutcomeUnknown, stage := OtherStage)
    else if o.status.Authorized? && Capability(w, id) && o.stage.AuthorizationCommitted?
      then o.(status := OpCancelled, stage := OtherStage)
    else o
  }

  /** `runStartupRecovery`. */
  function Recover(w: Work): Work {
    w.(ops := map id | id in w.ops :: Reconciled(w, id), tools := Abandoned(w.tools), controls := Abandoned(w.controls))
  }

  lemma StartedOrOrdinary(w: Work, id: Id)
    requires !Malformed(w) && id in w.ops && Capability(w, id) && w.ops[id].status.OpRunning?
    ensures w.ops[id].stage.EffectStarted?
  {
  }

  lemma RecoverIs(w: Work, u: Work)
    requires u.ops.Keys == w.ops.Keys && forall id :: id in w.ops ==> u.ops[id] == Reconciled(w, id)
    requires u == w.(ops := u.ops, tools := Abandoned(w.tools), controls := Abandoned(w.controls))
    ensures u == Recover(w)
  {
    hide Reconciled, Abandoned;
    assert u.ops == Recover(w).ops;
  }

  /** The updates of `runStartupRecovery` in their order: started capability operations, authorized ones
      that had not started, every other running operation, tools, control items. */
  method RunStartupRecovery(w: Work) returns (u: Work, done: bool)
    ensures done <==> !Malformed(w)
    ensures done <==> forall id :: id in w.ops && id in w.allowed && w.ops[id].bound ==> Restartable(w.ops[id])
    ensures u == if done then Recover(w) else w
  {
    MalformedMeans(w);
    if Malformed(w) { return w, false; }
    var started := map id | id in w.ops ::
      if w.ops[id].status.OpRunning? && w.ops[id].stage.EffectStarted? && w.ops[id].bound && id in w.allowed
      then w.ops[id].(status := OutcomeUnknown, stage := OtherStage) else w.ops[id];
    var authorized := map id | id in started ::
      if started[id].status.Authorized? && started[id].stage.AuthorizationCommitted? && started[id].bound
        && id in w.allowed
      then started[id].(status := OpCancelled, stage := OtherStage) else started[id];
    var ops := map id | id in authorized ::
      if authorized[id].status.OpRunning? && !(authorized[id].bound && id in w.allowed)
      then authorized[id].(status := OutcomeUnknown, stage := OtherStage) else authorized[id];
    hide Malformed, Abandoned, Recover;
    forall id | id in w.ops ensures ops[id] == Reconciled(w, id) {
      if Capability(w, id) && w.ops[id].status.OpRunning? { StartedOrOrdinary(w, id); }
    }
    hide Reconciled;
    u := w.(ops := ops, tools := Abandoned(w.tools), controls := Abandoned(w.controls));
    RecoverIs(w, u);
    done := true;
  }

  predicate Has(m: map<Id, Delivery>, d: Delivery) {
    exists id :: id in m && m[id] == d
  }

  predicate HasOperation(w: Work, status: WorkStatus) {
    exists id :: id in w.ops && w.ops[id].status == status
  }

  predicate ExternalWork(w: Work) {
    w.external || exists id :: id in w.approvals && w.approvals[id].external
  }

  predicate PendingApproval(w: Work) {
    exists id :: id in w.approvals && w.approvals[id].pending
  }

  /** The guards of the recovery query over everything but the run row and its continuations. */
  predicate ProvenSafe(t: Task, w: Work) {
    && !ExternalWork(w) && !PendingApproval(w) && !PendingInput(t)
    && !HasOperation(w, OutcomeUnknown) && !Has(w.controls, Unknown) && !Has(w.commands, Unknown)
    && !Has(w.tools, InProgress) && !Has(w.tools, Unknown)
  }

  // ---------------------------------------------------------------- histories with crashes

  /** No process runs; the store has been opened; start-up recovery has committed. */
  datatype Stage = Down | Swept | Ready

  datatype Life = Life(task: Task, work: Work, stage: Stage)

  datatype Event =
    | Crash
    | Open
    | Reconcile(othersMalformed: bool)
    | Transact(step: Step)
    | Perform(work: WorkStep)
    | QueueRecoveries(max: nat)

  function Next(l: Life, e: Event): Life {
    match e
    case Crash => l.(stage := Down)
    case Open => if l.stage.Down? then l.(work := Sweep(l.work), stage := Swept) else l
    case Reconcile(othersMalformed) =>
      if l.stage.Swept? && !othersMalformed && !Malformed(l.work) then l.(work := Recover(l.work), stage := Ready)
        else l
    case Transact(step) => if l.stage.Ready? && !step.QueueSafe? then l.(task := Apply(l.task, step)) else l
    case Perform(work) => if l.stage.Ready? then l.(work := DoWork(l.work, work)) else l
    case QueueRecoveries(max) =>
      if l.stage.Ready? then l.(task := Apply(l.task, QueueSafe(ProvenSafe(l.task, l.work), max))) else l
  }

  /** The event queues an automatic continuation of this run. */
  predicate Fires(l: Life, e: Event) {
    e.QueueRecoveries? && l.stage.Ready? && Enabled(l.task, QueueSafe(ProvenSafe(l.task, l.work), e.max))
  }

  function History(l: Life, events: seq<Event>): Life
    decreases |events|
  {
    if events == [] then l else History(Next(l, events[0]), events[1..])
  }

  function Firings(l: Life, events: seq<Event>): nat
    decreases |events|
  {
    if events == [] then 0 else (if Fires(l, events[0]) then 1 else 0) + Firings(Next(l, events[0]), events[1..])
  }

  // ---------------------------------------------------------------- uncertain work is never continued

  /** Work that reached the outside and whose outcome the store does not know yet. */
  predicate InFlight(w: Work) {
    HasOperation(w, OpRunning) || Has(w.tools, InProgress) || Has(w.controls, InProgress) || Has(w.commands, InProgress)
  }

  /** An outcome that stays unknown, or a run that is external by contract or by an approval. */
  predicate Tainted(w: Work) {
    || ExternalWork(w) || HasOperation(w, OutcomeUnknown)
    || Has(w.controls, Unknown) || Has(w.commands, Unknown) || Has(w.tools, Unknown)
  }

  /** No work can be finished before start-up recovery has looked at it. */
  predicate Doomed(l: Life) {
    || Tainted(l.work)
    || (l.stage.Down? && InFlight(l.work))
    || (l.stage.Swept? && InFlight(l.work) && !Has(l.work.commands, InProgress))
  }

  lemma HasKept(m: map<Id, Delivery>, n: map<Id, Delivery>, d: Delivery)
    requires Has(m, d) && forall id :: id in m && m[id] == d ==> id in n && n[id] == d
    ensures Has(n, d)
  {
    var id :| id in m && m[id] == d;
    assert id in n && n[id] == d;
  }

  lemma UnknownIsKept(m: map<Id, Delivery>)
    requires Has(m, Unknown)
    ensures Has(Abandoned(m), Unknown)
  {
    HasKept(m, Abandoned(m), Unknown);
  }

  lemma AbandonedIsUnknown(m: map<Id, Delivery>)
    requires Has(m, InProgress)
    ensures Has(Abandoned(m), Unknown)
  {
    var id :| id in m && m[id] == InProgress;
    assert Abandoned(m)[id] == Unknown;
  }

  lemma InsertKeeps(m: map<Id, Delivery>, id: Id, d: Delivery)
    requires Has(m, Unknown)
    ensures Has(Insert(m, id, d), Unknown)
  {
    HasKept(m, Insert(m, id, d), Unknown);
  }

  lemma MoveKeeps(m: map<Id, Delivery>, id: Id, from: Delivery, to: Delivery)
    requires Has(m, Unknown) && !from.Unknown?
    ensures Has(Move(m, id, from, to), Unknown)
  {
    HasKept(m, Move(m, id, from, to), Unknown);
  }

  lemma WorkKeepsExternal(w: Work, s: WorkStep)
    requires ExternalWork(w)
    ensures ExternalWork(DoWork(w, s))
  {
    if !w.external {
      var id :| id in w.approvals && w.approvals[id].external;
      assert id in DoWork(w, s).approvals && DoWork(w, s).approvals[id].external;
    }
  }

  lemma WorkKeepsUnknown(w: Work, s: WorkStep)
    requires HasOperation(w, OutcomeUnknown)
    ensures HasOperation(DoWork(w, s), OutcomeUnknown)
  {
    var id :| id in w.ops && w.ops[id].status == OutcomeUnknown;
    assert id in DoWork(w, s).ops && DoWork(w, s).ops[id].status == OutcomeUnknown;
  }

  lemma WorkKeepsTaint(w: Work, s: WorkStep)
    requires Tainted(w)
    ensures Tainted(DoWork(w, s))
  {
    if ExternalWork(w) { WorkKeepsExternal(w, s); }
    if HasOperation(w, OutcomeUnknown) { WorkKeepsUnknown(w, s); }
    hide Has, Insert, Move, ExternalWork, HasOperation;
    match s
    case StartTool(id) => if Has(w.tools, Unknown) { InsertKeeps(w.tools, id, InProgress); }
    case FinishTool(id) => if Has(w.tools, Unknown) { MoveKeeps(w.tools, id, InProgress, Finished); }
    case EnqueueControl(id) => if Has(w.controls, Unknown) { InsertKeeps(w.controls, id, Waiting); }
    case DeliverControl(id) => if Has(w.controls, Unknown) { MoveKeeps(w.controls, id, Waiting, InProgress); }
    case FinishControl(id) => if Has(w.controls, Unknown) { MoveKeeps(w.controls, id, InProgress, Finished); }
    case StartCommand(id) => if Has(w.commands, Unknown) { InsertKeeps(w.commands, id, InProgress); }
    case SettleCommand(id, u) =>
      if Has(w.commands, Unknown) { MoveKeeps(w.commands, id, InProgress, if u then Unknown else Finished); }
    case _ =>
  }

  lemma SweepDooms(w: Work)
    requires Tainted(w) || InFlight(w)
    ensures Tainted(Sweep(w)) || InFlight(Sweep(w))
    ensures Tainted(w) ==> Tainted(Sweep(w))
  {
    if Has(w.commands, Unknown) { UnknownIsKept(w.commands); }
    if Has(w.commands, InProgress) { AbandonedIsUnknown(w.commands); }
    assert HasOperation(w, OpRunning) ==> HasOperation(Sweep(w), OpRunning);
    assert HasOperation(w, OutcomeUnknown) ==> HasOperation(Sweep(w), OutcomeUnknown);
  }

  lemma RecoverDooms(w: Work)
    requires Tainted(w) || (InFlight(w) && !Has(w.commands, InProgress))
    ensures Tainted(Recover(w))
  {
    var u := Recover(w);
    if HasOperation(w, OutcomeUnknown) || HasOperation(w, OpRunning) {
      var id :| id in w.ops && (w.ops[id].status == OutcomeUnknown || w.ops[id].status == OpRunning);
      assert id in u.ops && u.ops[id].status == OutcomeUnknown;
    }
    if Has(w.tools, Unknown) { UnknownIsKept(w.tools); }
    if Has(w.tools, InProgress) { AbandonedIsUnknown(w.tools); }
    if Has(w.controls, Unknown) { UnknownIsKept(w.controls); }
    if Has(w.controls, InProgress) { AbandonedIsUnknown(w.controls); }
  }

  lemma NextDooms(l: Life, e: Event)
    requires Doomed(l)
    ensures Doomed(Next(l, e)) && !Fires(l, e)
  {
    hide Apply, DoWork;
    match e
    case Open => SweepDooms(l.work);
    case Reconcile(_) => if l.stage.Swept? { RecoverDooms(l.work); }
    case Perform(s) => if l.stage.Ready? { WorkKeepsTaint(l.work, s); }
    case _ =>
  }

  /** A run that crashed with a running operation or tool, a delivering control item or a started
      command, or that is external, is never continued automatically: not by the next start and not by
      any later one, whatever crashes, restarts and transactions follow. */
  lemma NeverContinued(l: Life, events: seq<Event>)
    requires l.stage.Down? && (InFlight(l.work) || Tainted(l.work))
    ensures Firings(l, events) == 0 && Doomed(History(l, events))
  {
    DoomedNeverFires(l, events);
  }

  lemma {:induction false} DoomedNeverFires(l: Life, events: seq<Event>)
    requires Doomed(l)
    ensures Firings(l, events) == 0 && Doomed(History(l, events))
    decreases |events|
  {
    hide Next, Doomed, Fires;
    if events != [] {
      NextDooms(l, events[0]);
      DoomedNeverFires(Next(l, events[0]), events[1..]);
    }
  }

  // ---------------------------------------------------------------- bounded recoveries

  lemma LogCounts(t: Task, ordinal: nat, kind: EventKind)
    ensures SafeCount(Log(t, ordinal, kind).events)
            == SafeCount(t.events) + if kind == ContinuationQueued(true) then 1 else 0
  {
    var u := Log(t, ordinal, kind);
    assert u.events[..|t.events|] == t.events;
  }

  lemma ApplyCounts(t: Task, s: Step)
    ensures SafeCount(t.events) <= SafeCount(Apply(t, s).events)
    ensures s.QueueSafe? && Enabled(t, s) ==> SafeCount(Apply(t, s).events) == SafeCount(t.events) + 1
  {
    hide SafeCount, ActiveIndex, Lookup, Projected;
    match s
    case Transition(_, _, kind, _) => LogCounts(t, t.run.attempt, kind);
    case RequestInput => LogCounts(t, t.run.attempt, WaitingForInput);
    case Interrupt => LogCounts(t, t.run.attempt, RestartInterruption);
    case Append(kind) => LogCounts(t, t.run.attempt, kind);
    case Claim(_, _, _, _) => LogCounts(t, t.run.attempt + 1, ContinuationStarted(ActiveIndex(t.conts)));
    case Handoff(request) =>
      var c := if NoneActive(t.conts) then Enqueue(t, 0) else t;
      LogCounts(c, t.run.attempt, HandoffPrepared(request, ActiveIndex(c.conts)));
    case RecordActivation(request, result) => LogCounts(t, t.run.attempt, ActivationResult(request, result));
    case QueueSafe(_, _) => LogCounts(Enqueue(t, 0), t.run.attempt, ContinuationQueued(true));
    case _ =>
  }

  predicate Bounded(events: seq<Event>, max: nat) {
    forall i :: 0 <= i < |events| && events[i].QueueRecoveries? ==> events[i].max <= max
  }

  /** Over all restarts together a run is continued automatically at most `max` times. */
  lemma {:induction false} FiringsAreBounded(l: Life, events: seq<Event>, max: nat)
    requires Bounded(events, max)
    ensures Firings(l, events) <= if SafeCount(l.task.events) < max then max - SafeCount(l.task.events) else 0
    decreases |events|
  {
    hide Apply, SafeCount, DoWork, ProvenSafe;
    if events != [] {
      var e := events[0];
      if e.Transact? { ApplyCounts(l.task, e.step); }
      if e.QueueRecoveries? { ApplyCounts(l.task, QueueSafe(ProvenSafe(l.task, l.work), e.max)); }
      FiringsAreBounded(Next(l, e), events[1..], max);
    }
  }

  // ---------------------------------------------------------------- start-up is idempotent

  /** A whole start-up on one run: sweep, reconcile, mark interrupted, queue recoveries. Malformed
      capability state, of this run or of others, stops it after the sweep. */
  function StartUp(t: Task, w: Work, othersMalformed: bool, max: nat): (Task, Work) {
    if othersMalformed || Malformed(w) then (t, Sweep(w))
    else
      var u := Recover(Sweep(w));
      var m := Apply(t, Interrupt);
      (Apply(m, QueueSafe(ProvenSafe(m, u), max)), u)
  }

  lemma RecoverTwice(w: Work)
    ensures var u := Recover(Sweep(w)); Sweep(u) == u && Recover(u) == u && (!Malformed(w) ==> !Malformed(u))
  {
    var u := Recover(Sweep(w));
    assert Abandoned(u.commands) == u.commands;
    assert Abandoned(u.tools) == u.tools;
    assert Abandoned(u.controls) == u.controls;
    assert Recover(u).ops == u.ops;
    forall id | id in u.ops && Capability(u, id) ensures Capability(w, id) {
    }
  }

  lemma SweptTwice(w: Work)
    ensures Sweep(Sweep(w)) == Sweep(w) && (Malformed(Sweep(w)) <==> Malformed(w))
  {
    assert Abandoned(Abandoned(w.commands)) == Abandoned(w.commands);
    assert forall id :: Capability(Sweep(w), id) == Capability(w, id);
  }

  lemma QueueTwice(t: Task, max: nat, safe: bool, again: bool)
    requires !t.run.status.Running?
    requires t.run.status.Interrupted? && WasInterrupted(t) && NoneActive(t.conts) && again ==> safe
    ensures var u := Apply(t, QueueSafe(safe, max)); Apply(Apply(u, Interrupt), QueueSafe(again, max)) == u
  {
    hide SafeCount, ActiveIndex;
  }

  /** Repeating the start-up transactions, as after a crash in the middle of them, changes nothing. */
  lemma StartUpIsIdempotent(t: Task, w: Work, othersMalformed: bool, max: nat)
    ensures var (u, v) := StartUp(t, w, othersMalformed, max); StartUp(u, v, othersMalformed, max) == (u, v)
  {
    var (u, v) := StartUp(t, w, othersMalformed, max);
    RecoverTwice(w);
    if othersMalformed || Malformed(w) {
      SweptTwice(w);
      return;
    }
    var m := Apply(t, Interrupt);
    assert !m.run.status.Running?;
    assert PendingInput(u) == PendingInput(m) by { hide SafeCount, ActiveIndex; assert u.inputs == m.inputs; }
    hide Apply, Enabled, ProvenSafe;
    assert Apply(u, Interrupt) == u by { InterruptTwice(m, ProvenSafe(m, v), max); }
    assert ProvenSafe(u, v) == ProvenSafe(m, v) by { SafeDependsOnInputs(u, m, v); }
    QueueTwice(m, max, ProvenSafe(m, v), ProvenSafe(u, v));
  }

  lemma SafeDependsOnInputs(t: Task, u: Task, w: Work)
    requires PendingInput(t) == PendingInput(u)
    ensures ProvenSafe(t, w) == ProvenSafe(u, w)
  {
  }

  lemma InterruptTwice(t: Task, safe: bool, max: nat)
    requires !t.run.status.Running?
    ensures var u := Apply(t, QueueSafe(safe, max)); Apply(u, Interrupt) == u
  {
    hide SafeCount, ActiveIndex;
  }

  // ---------------------------------------------------------------- what a start-up makes of the work

  /** The status an operation has after a start-up: an effect that may have happened is unknown, a capability
      that was authorized and had not started is cancelled, everything else stays. */
  predicate SettledAs(o: WorkOperation, capability: bool, settled: WorkOperation) {
    && settled.bound == o.bound
    && match o.status
       case OpRunning => settled.status == OutcomeUnknown
       case Authorized => if capability then settled.status == OpCancelled else settled == o
       case _ => settled == o
  }

  predicate SettledDeliveries(before: map<Id, Delivery>, after: map<Id, Delivery>) {
    && after.Keys == before.Keys
    && (forall id :: id in before ==> after[id] == if before[id] == InProgress then Unknown else before[id])
  }

  /** A start-up that goes through settles every row; one that malformed state stops has swept the commands. */
  lemma StartUpSettles(t: Task, w: Work, othersMalformed: bool, max: nat)
    ensures var u := StartUp(t, w, othersMalformed, max).1;
            && SettledDeliveries(w.commands, u.commands)
            && u.allowed == w.allowed && u.approvals == w.approvals && u.external == w.external
            && if othersMalformed
                  || exists id :: id in w.ops && id in w.allowed && w.ops[id].bound && !Restartable(w.ops[id])
               then u.ops == w.ops && u.tools == w.tools && u.controls == w.controls
               else
                 && SettledDeliveries(w.tools, u.tools) && SettledDeliveries(w.controls, u.controls)
                 && u.ops.Keys == w.ops.Keys
                 && forall id :: id in w.ops ==> SettledAs(w.ops[id], w.ops[id].bound && id in w.allowed, u.ops[id])
  {
    hide Apply;
    MalformedMeans(w);
    AbandonedSettles(w.commands);
    AbandonedSettles(w.tools);
    AbandonedSettles(w.controls);
    hide Abandoned, SettledDeliveries, SettledAs, Restartable;
    if !othersMalformed && !Malformed(w) {
      hide Malformed;
      forall id | id in w.ops
        ensures SettledAs(w.ops[id], w.ops[id].bound && id in w.allowed, Recover(Sweep(w)).ops[id]) {
        OperationSettles(w, id);
      }
    }
    hide Malformed, Reconciled;
  }

  lemma AbandonedSettles(m: map<Id, Delivery>)
    ensures SettledDeliveries(m, Abandoned(m))
  {
  }

  lemma OperationSettles(w: Work, id: Id)
    requires !Malformed(w) && id in w.ops
    ensures SettledAs(w.ops[id], w.ops[id].bound && id in w.allowed, Recover(Sweep(w)).ops[id])
  {
    hide Abandoned;
    if w.ops[id].bound && id in w.allowed {
      MalformedMeans(w);
      assert Restartable(w.ops[id]);
    }
    hide Malformed;
  }

  lemma MalformedMeans(w: Work)
    ensures Malformed(w) <==>
              exists id :: id in w.ops && id in w.allowed && w.ops[id].bound && !Restartable(w.ops[id])
  {
    if id :| id in w.ops && id in w.allowed && w.ops[id].bound && !Restartable(w.ops[id]) {
      assert Capability(w, id);
    }
    if Malformed(w) {
      var id :| id in w.ops && Capability(w, id) &&
        ((w.ops[id].status.Authorized? && !w.ops[id].stage.AuthorizationCommitted?)
         || (w.ops[id].status.OpRunning? && !w.ops[id].stage.EffectStarted?));
      assert !Restartable(w.ops[id]);
    }
  }

  // ---------------------------------------------------------------- exactly when a run is continued

  lemma AbandonedHas(m: map<Id, Delivery>)
    ensures !Has(Abandoned(m), InProgress)
    ensures Has(Abandoned(m), Unknown) <==> Has(m, InProgress) || Has(m, Unknown)
  {
    if Has(m, InProgress) { AbandonedIsUnknown(m); }
    if Has(m, Unknown) { UnknownIsKept(m); }
  }

  lemma RecoveredUnknown(w: Work)
    ensures HasOperation(Recover(w), OutcomeUnknown) <==> HasOperation(w, OpRunning) || HasOperation(w, OutcomeUnknown)
  {
    var u := Recover(w);
    if HasOperation(w, OpRunning) || HasOperation(w, OutcomeUnknown) {
      var id :| id in w.ops && (w.ops[id].status == OutcomeUnknown || w.ops[id].status == OpRunning);
      assert id in u.ops && u.ops[id].status == OutcomeUnknown;
    }
  }

  lemma StartedSafe(t: Task, w: Work)
    ensures ProvenSafe(t, Recover(Sweep(w)))
            <==> !Tainted(w) && !InFlight(w) && !PendingApproval(w) && !PendingInput(t)
  {
    AbandonedHas(w.commands);
    AbandonedHas(w.tools);
    AbandonedHas(w.controls);
    RecoveredUnknown(Sweep(w));
    assert HasOperation(Sweep(w), OpRunning) == HasOperation(w, OpRunning);
    assert HasOperation(Sweep(w), OutcomeUnknown) == HasOperation(w, OutcomeUnknown);
    hide Has, Abandoned, HasOperation, PendingInput;
  }

  lemma InterruptedCounts(t: Task)
    ensures var m := Apply(t, Interrupt);
            && (m.run.status.Interrupted? && WasInterrupted(m)
                <==> t.run.status.Running? || (t.run.status.Interrupted? && WasInterrupted(t)))
            && m.conts == t.conts && m.inputs == t.inputs && SafeCount(m.events) == SafeCount(t.events)
  {
    if t.run.status.Running? {
      LogCounts(t, t.run.attempt, RestartInterruption);
      var m := Apply(t, Interrupt);
      assert m.events[|t.events|].kind.RestartInterruption?;
    }
  }

  /** A start-up continues a run by itself if and only if no capability state is malformed and, at the
      crash, the run was running or already interrupted, had no active continuation, no uncertain,
      external or pending work, and its earlier automatic recoveries are fewer than `max`. A run that it
      does not continue is interrupted at most, and left alone by a start-up that malformed state stops. */
  lemma ContinuedExactlyWhen(t: Task, w: Work, othersMalformed: bool, max: nat)
    ensures var u := StartUp(t, w, othersMalformed, max).0;
            var continued := SafeCount(u.events) > SafeCount(t.events);
            && (continued <==>
                  && !othersMalformed && !Malformed(w)
                  && (t.run.status.Running? || (t.run.status.Interrupted? && WasInterrupted(t)))
                  && NoneActive(t.conts) && SafeCount(t.events) < max
                  && !Tainted(w) && !InFlight(w) && !PendingApproval(w) && !PendingInput(t))
            && (!continued ==> u == if othersMalformed || Malformed(w) then t else Apply(t, Interrupt))
  {
    var m := Apply(t, Interrupt);
    InterruptedCounts(t);
    StartedSafe(m, w);
    assert PendingInput(m) == PendingInput(t) by { assert m.inputs == t.inputs; }
    hide Apply, SafeCount, Tainted, InFlight, ProvenSafe, PendingApproval, PendingInput, WasInterrupted, Recover, Sweep;
    hide Malformed;
    QueueChanges(m, ProvenSafe(m, Recover(Sweep(w))), max);
  }

  lemma QueueChanges(t: Task, safe: bool, max: nat)
    ensures var u := Apply(t, QueueSafe(safe, max));
            && (SafeCount(u.events) > SafeCount(t.events) <==>
                  t.run.status.Interrupted? && WasInterrupted(t) && safe && NoneActive(t.conts)
                  && SafeCount(t.events) < max)
            && (SafeCount(u.events) <= SafeCount(t.events) ==> u == t)
  {
    if Enabled(t, QueueSafe(safe, max)) { ApplyCounts(t, QueueSafe(safe, max)); }
  }
}
