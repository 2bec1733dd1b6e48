/** The Core Host as a transition system: two durable cells (the `current` link and the host state
    file), the volatile state of one Host process, and one step for every stretch of code between
    two awaits. Anything the environment decides is part of the event. */
module HostProtocol {
  import opened Wrappers

  type Release = nat
  type SessionId = nat

  datatype Config = Config(window: nat, maxCrashes: nat)

  // ---------------------------------------------------------------- durable cells

  datatype Phase = Validating | Draining | Starting | Committed | RolledBack | Failed

  /** `Current` asks for a restart of the release that is already linked. */
  datatype Target = Current | Exactly(release: Release)

  /** `identity` stands for the run and operation the request belongs to. */
  datatype Request = Request(id: nat, identity: nat, target: Target, expectedCurrent: Release)

  datatype Activation = Activation(id: nat, identity: nat, previous: Release, target: Release, phase: Phase)

  datatype Durable = Durable(link: Release, activation: Option<Activation>, crashes: seq<int>)

  function ResolvedTarget(q: Request, previous: Release): Release {
    if q.target.Current? then previous else q.target.release
  }

  predicate Terminal(phase: Phase) {
    phase.Committed? || phase.RolledBack? || phase.Failed?
  }

  // ---------------------------------------------------------------- volatile state

  /** A spawned Generation. `managed` exits are handled by whoever manages them; others are crashes. */
  datatype Session = Session(release: Release, alive: bool, ready: bool, managed: bool, fence: int)

  /** The request being activated, the session it replaces, and the fence a new Generation must pass. */
  datatype Job = Job(q: Request, prior: SessionId, previous: Release, target: Release, fence: int)

  datatype Stage =
    | Resolving
    | Verifying
    | DrainingOld
    | Launching
    | AwaitReady(c: SessionId)
    | Killing(c: SessionId)
    | Stabilizing(c: SessionId)
    | Linked(c: SessionId)
    | Settling(c: SessionId)
    | FailSettling
    | RollbackStopping(c: SessionId)
    | RollbackVerifying
    | RollbackLaunching
    | RollbackReady(c: SessionId)
    | RollbackKilling(c: SessionId)
    | RollbackSettling(c: SessionId)
    | AbortStopping(c: SessionId)
    | FatalStopping(c: SessionId)

  datatype ActivationTask = Idle | Busy(job: Job, at: Stage)

  /** `Reporting` is about to report the activation it recovered, once its record is written. */
  datatype BootTask = Booted | AwaitBoot | Reporting(recovered: nat) | BootStopping

  datatype RestartTask =
    | NoRestart
    | Delay(fence: int)
    | RestartLaunching(fence: int, release: Release)
    | RestartReady(fence: int, c: SessionId)
    | RestartKilling(fence: int, c: SessionId)

  /** `Conflicts` is the failed result of a request that reuses an id with another identity. */
  datatype Verdict = Succeeded | WasRolledBack | HasFailed | Conflicts | Blocked

  /** A delivered ACTIVATION_RESULT, with the link and two of the Host's history flags when it was sent;
      `stray` marks a recovery report that another request's record has overtaken. */
  datatype Sent = Sent(verdict: Verdict, id: nat, release: Release, link: Release, relinked: bool, disturbed: bool,
                       stray: bool)

  /** A durably recorded crash and whether the Host restarted a Generation after it. */
  datatype Crash = Crash(time: int, restarted: bool)

  /** The latest clock value, the time of the last prune, and every crash recorded so far. */
  datatype Ledger = Ledger(clock: int, pruned: int, recorded: seq<Crash>)

  /** What went on since the last activation record was written, or in this Host lifetime.
      `exposed`: a candidate died between its durable committed record and its settlement.
      `relinked`: the commit of a rollback changed the link.
      `usurped`: a session that a restart had rejected, and was killing, had an activation accepted.
      `disturbed`: the last record was written, or not yet replaced, in such a lifetime.
      `overtaken`: another request's record has entered memory while a recovery report is due. */
  datatype Marks = Marks(exposed: bool, relinked: bool, usurped: bool, disturbed: bool, overtaken: bool)

  /** `memory` and `crashes` are the Host's own copy of the state file; the last four fields are history. */
  datatype Host = Host(
    durable: Durable, up: bool, stopped: bool,
    memory: Option<Activation>, crashes: seq<int>,
    sessions: seq<Session>, active: Option<SessionId>,
    act: ActivationTask, boot: BootTask, restart: RestartTask,
    fences: seq<int>, ledger: Ledger, sent: seq<Sent>, marks: Marks)

  /** What the environment decides for one step: whether the awaited operation succeeds, whether a
      commit moved the link before it failed, the two writes a step may issue, and a READY fence. */
  datatype Choice = Choice(ok: bool, moved: bool, write: bool, record: bool, fence: int, now: int)

  datatype Event =
    | Boot(now: int, write: bool, verified: bool, closed: bool)
    | BootReady(choice: Choice)
    | BootUnready
    | BootGiveUp(choice: Choice)
    | Report
    | Exit(session: SessionId, choice: Choice)
    | LateReady(choice: Choice)
    | Activate(q: Request, choice: Choice)
    | Advance(choice: Choice)
    | Restart(choice: Choice)
    | Close
    | HostCrash

  // ---------------------------------------------------------------- building blocks

  function Within(times: seq<int>, after: int): seq<int> {
    if times == [] then []
    else Within(times[..|times| - 1], after) + (if times[|times| - 1] > after then [times[|times| - 1]] else [])
  }

  function Down(h: Host): Host {
    h.(up := false, stopped := false, memory := None, crashes := [], sessions := [], active := None,
       act := Idle, boot := Booted, restart := NoRestart, fences := [],
         marks := h.marks.(usurped := false, overtaken := false))
  }

  function Put(h: Host, i: SessionId, s: Session): Host
    requires i < |h.sessions|
  {
    h.(sessions := h.sessions[i := s])
  }

  /** Nothing about crashes has changed, apart from a rewrite of the durable list from memory. */
  predicate SameLedger(h: Host, r: Host) {
    && r.ledger == h.ledger
    && (r.durable.crashes == h.durable.crashes || r.durable.crashes == h.crashes)
    && (r.up ==> r.crashes == h.crashes)
  }

  /** The process is gone and took its volatile state with it. */
  predicate Reset(r: Host) {
    && !r.up && !r.stopped && r.memory.None? && r.crashes == [] && r.sessions == [] && r.active.None?
    && r.act.Idle? && r.boot.Booted? && r.restart.NoRestart? && r.fences == [] && !r.marks.usurped && !r.marks.overtaken
  }

  /** No session is spawned, and the flags of a usurped lifetime stay. */
  predicate Carries(h: Host, r: Host) {
    && |r.sessions| <= |h.sessions|
    && (r.up ==> r.marks.usurped == h.marks.usurped) && (h.up && !r.up ==> Reset(r))
    && (h.marks.usurped && h.marks.disturbed ==> r.marks.disturbed)
  }

  /** At most one result was sent. */
  predicate Speaks(h: Host, r: Host) {
    r.sent == h.sent
    || (|r.sent| == |h.sent| + 1 && r.sent[..|h.sent|] == h.sent && r.sent[|h.sent|].disturbed == h.marks.disturbed)
  }

  /** Every record that was written is one of request `id`; a failed one ends its activation. */
  predicate Files(h: Host, r: Host, id: nat) {
    && (r.act == h.act || (r.act.Busy? ==> r.act.job.q.id == id))
    && (|| r.durable.activation == h.durable.activation
        || r.durable.activation == h.memory
        || (r.durable.activation.Some? && r.durable.activation.value.id == id))
    && (r.act.Busy? && r.act.at.FailSettling? ==>
          || r.act == h.act
          || (r.memory.Some? && r.memory.value.id == id && r.memory.value.phase.Failed?
              && r.durable.activation == r.memory))
    && (r.up && h.stopped ==> r.stopped)
    && (r.up ==>
          && (|| r.durable.activation == h.durable.activation
              || r.durable.activation == h.memory
              || r.durable.activation == r.memory)
          && r.boot == h.boot
          && (|| (r.memory == h.memory && r.marks.overtaken == h.marks.overtaken)
              || (r.memory.Some? && r.memory.value.id == id
                  && r.marks.overtaken == (h.marks.overtaken || (h.boot.Reporting? && id != h.boot.recovered))))
          && (r.memory != h.memory && r.memory.Some? && r.memory.value.phase.Failed? ==>
                r.stopped || (r.durable.activation == r.memory && r.act.Busy? && r.act.at.FailSettling?)))
  }

  predicate Alive(h: Host, i: SessionId) {
    i < |h.sessions| && h.sessions[i].alive
  }

  function Manage(h: Host, i: SessionId, managed: bool): Host {
    if i < |h.sessions| then Put(h, i, h.sessions[i].(managed := managed)) else h
  }

  function Deactivate(h: Host, i: SessionId): Host {
    if h.active == Some(i) then h.(active := None) else h
  }

  /** `stopSession` up to the point where it waits for the exit. */
  function Stop(h: Host, i: SessionId): Host {
    if Alive(h, i) then Manage(Deactivate(h, i), i, true) else Deactivate(h, i)
  }

  function Spawn(h: Host, release: Release): Host {
    h.(sessions := h.sessions + [Session(release, true, false, true, 0)], active := Some(|h.sessions|))
  }

  function Record(job: Job, phase: Phase): Activation {
    Activation(job.q.id, job.q.identity, job.previous, job.target, phase)
  }

  /** The history after a durable write of `a`: a new record clears what concerned the old one, and a
      record of another activation also ends the disturbance of an earlier lifetime. */
  function Rewritten(h: Host, a: Option<Activation>): Marks {
    var was := h.durable.activation;
    if a == was then h.marks
    else
      var same := a.Some? && was.Some? && a.value.id == was.value.id;
      Marks(false, false, h.marks.usurped, if same then h.marks.disturbed else h.marks.usurped, h.marks.overtaken)
  }

  function Written(h: Host): Host {
    h.(durable := h.durable.(activation := h.memory, crashes := h.crashes), marks := Rewritten(h, h.memory))
  }

  /** Replace the activation record in memory and issue the state write. */
  function Persist(h: Host, a: Activation, ok: bool): Host {
    var overtaken := h.marks.overtaken || (h.boot.Reporting? && a.id != h.boot.recovered);
    var m := h.(memory := Some(a), marks := h.marks.(overtaken := overtaken));
    if ok then Written(m) else m
  }

  function Deliver(h: Host, i: SessionId, verdict: Verdict, id: nat, release: Release, stray: bool): (r: Host)
    ensures r == h.(sent := r.sent) && Speaks(h, r)
  {
    if Alive(h, i)
    then h.(sent := h.sent + [Sent(verdict, id, release, h.durable.link, h.marks.relinked, h.marks.disturbed, stray)])
    else h
  }

  function Send(h: Host, i: SessionId, verdict: Verdict, id: nat, release: Release): (r: Host)
    ensures r == h.(sent := r.sent) && Speaks(h, r)
  {
    Deliver(h, i, verdict, id, release, false)
  }

  function VerdictOf(a: Activation): Verdict {
    if a.phase.Committed? then Succeeded else if a.phase.RolledBack? then WasRolledBack else HasFailed
  }

  function NamedRelease(a: Activation): Release {
    if a.phase.Committed? then a.target else a.previous
  }

  function SendRecord(h: Host, i: SessionId, a: Activation): Host {
    Send(h, i, VerdictOf(a), a.id, NamedRelease(a))
  }

  /** `recordCrash`: prune, append, write. A write that fails is fatal to every caller. */
  function RecordCrash(cfg: Config, h: Host, now: int, write: bool, restarts: bool): (r: Host)
    ensures Carries(h, r) && r.sent == h.sent
  {
    var kept := Within(h.crashes, now - cfg.window) + [now];
    if !write then Down(h.(ledger := h.ledger.(clock := now)))
    else
      var restarted := restarts && |kept| <= cfg.maxCrashes;
      var r := Written(h.(crashes := kept)).(ledger := Ledger(now, now, h.ledger.recorded + [Crash(now, restarted)]));
      if restarts && |kept| > cfg.maxCrashes then Down(r) else r
  }

  /** `unexpectedExit` of the active session. */
  function CrashExit(cfg: Config, h: Host, i: SessionId, now: int, write: bool): (r: Host)
    requires i < |h.sessions|
    ensures Carries(h, r) && r.sent == h.sent
  {
    var r := RecordCrash(cfg, h.(active := None), now, write, true);
    if r.up && r.restart.NoRestart? then r.(restart := Delay(h.sessions[i].fence)) else r
  }

  predicate Unexpected(h: Host, i: SessionId) {
    !h.stopped && i < |h.sessions| && !h.sessions[i].managed && !h.sessions[i].alive && h.active == Some(i)
  }

  /** `allowUnexpectedExitRecovery`: an exit that already happened is reported now. */
  function Allow(cfg: Config, h: Host, i: SessionId, now: int, write: bool): (r: Host)
    ensures Carries(h, r) && r.sent == h.sent
  {
    var r := Manage(h, i, false);
    if Unexpected(r, i) then CrashExit(cfg, r, i, now, write) else r
  }

  // ---------------------------------------------------------------- failure paths

  /** The old Generation is still serving: record the failure and keep it, or give up. */
  function KeepPrior(h: Host, job: Job, write: bool): (r: Host)
    ensures Files(h, r, job.q.id)
    ensures SameLedger(h, r) && Carries(h, r) && r.sent == h.sent
  {
    var r := Persist(h, Record(job, Failed), write);
    if write then r.(act := Busy(job, FailSettling))
    else Stop(r, job.prior).(stopped := true, act := Busy(job, FatalStopping(job.prior)))
  }

  /** Start the rollback, stopping the candidate first; its fence must be passed as well. */
  function UndoCandidate(h: Host, job: Job, candidate: Option<SessionId>): (r: Host)
    ensures Files(h, r, job.q.id)
    ensures SameLedger(h, r) && Carries(h, r) && r.sent == h.sent
  {
    if candidate.None? then h.(act := Busy(job, RollbackVerifying))
    else
      var i := candidate.value;
      var seen := if i < |h.sessions| then h.sessions[i].fence else 0;
      Stop(h, i).(act := Busy(job.(fence := if seen > job.fence then seen else job.fence), RollbackStopping(i)))
  }

  /** The catch block of `activate`. */
  function Fail(h: Host, job: Job, oldStopped: bool, candidate: Option<SessionId>, write: bool): (r: Host)
    ensures Files(h, r, job.q.id)
    ensures SameLedger(h, r) && Carries(h, r) && r.sent == h.sent
  {
    if h.stopped then
      if candidate.Some? && Alive(h, candidate.value)
      then Stop(h, candidate.value).(act := Busy(job, AbortStopping(candidate.value)))
      else h.(act := Idle)
    else if !oldStopped && h.active == Some(job.prior) && Alive(h, job.prior) then KeepPrior(h, job, write)
    else UndoCandidate(h, job, candidate)
  }

  /** The catch block of `rollback`. */
  function RollbackFail(h: Host, job: Job, write: bool): (r: Host)
    ensures Files(h, r, job.q.id)
    ensures SameLedger(h, r) && Carries(h, r) && r.sent == h.sent
  {
    if h.stopped then h.(act := Idle)
    else
      var named := job.(target := ResolvedTarget(job.q, job.previous));
      var r := Persist(h, Record(named, Failed), write).(stopped := true);
      if r.active.Some? then Stop(r, r.active.value).(act := Busy(job, FatalStopping(r.active.value))) else Down(r)
  }

  /** The commit of a rollback. */
  function Relink(h: Host, release: Release, moved: bool): Host {
    Link(h, release, moved).(marks := h.marks.(relinked := h.marks.relinked || (moved && release != h.durable.link)))
  }

  /** `registry.commit`: the rename moves the link; the directory sync after it may still fail. */
  function Link(h: Host, release: Release, moved: bool): Host {
    if moved then h.(durable := h.durable.(link := release)) else h
  }

  // ---------------------------------------------------------------- activation steps

  function Accept(h: Host, i: SessionId, q: Request, c: Choice): (r: Host)
    requires i < |h.sessions|
    ensures SameLedger(h, r) && Carries(h, r) && r.sent == h.sent
  {
    var previous := h.sessions[i].release;
    var job := Job(q, i, previous, previous, h.sessions[i].fence);
    var r := Manage(h, i, true).(act := Busy(job, Resolving));
    if q.expectedCurrent != previous then Fail(r, job, false, None, c.record) else r
  }

  /** The session that a `startRelease` call has rejected and is killing. */
  function Condemned(h: Host): Option<SessionId> {
    if h.act.Busy? && h.act.at.Killing? then Some(h.act.at.c)
    else if h.act.Busy? && h.act.at.RollbackKilling? then Some(h.act.at.c)
    else if h.restart.RestartKilling? then Some(h.restart.c)
    else None
  }

  /** A READY that arrives after its `startRelease` has given up is still accepted by the session. */
  function OnLateReady(h: Host, c: Choice): Host {
    var i := Condemned(h);
    if !h.up || i.None? || !Alive(h, i.value) || h.sessions[i.value].ready then h
    else Put(h, i.value, h.sessions[i.value].(ready := true, fence := c.fence))
  }

  predicate MayActivate(h: Host) {
    h.up && !h.stopped && h.active.Some? && Alive(h, h.active.value) && h.sessions[h.active.value].ready
  }

  predicate Accepts(h: Host, q: Request) {
    MayActivate(h) && h.act.Idle? && !(h.memory.Some? && h.memory.value.id == q.id)
  }

  /** Nothing but this lets two tasks of one Host start Generations. */
  predicate Usurps(h: Host, q: Request) {
    Accepts(h, q) && h.restart.RestartKilling?
  }

  function Admitted(h: Host, q: Request): Host {
    h.(marks := h.marks.(usurped := h.marks.usurped || Usurps(h, q), disturbed := h.marks.disturbed || Usurps(h, q)))
  }

  /** The stored result of a request that was seen before, if it has one. */
  function Replayed(h: Host, i: SessionId, q: Request, a: Activation): Host
    requires i < |h.sessions|
  {
    if a.identity != q.identity || a.previous != q.expectedCurrent || a.target != ResolvedTarget(q, q.expectedCurrent)
    then Send(h, i, Conflicts, q.id, h.sessions[i].release)
    else if !Terminal(a.phase) then h
    else SendRecord(h, i, a)
  }

  /** An ACTIVATE message from the active session: replayed, refused while busy, or accepted. */
  function OnActivate(h: Host, q: Request, c: Choice): Host {
    if !MayActivate(h) then h
    else
      var i := h.active.value;
      if h.memory.Some? && h.memory.value.id == q.id then Replayed(h, i, q, h.memory.value)
      else if h.act.Busy? then Send(h, i, Blocked, q.id, h.sessions[i].release)
      else Accept(Admitted(h, q), i, q, c)
  }

  function AtResolving(h: Host, job: Job, c: Choice): (r: Host)
    ensures Files(h, r, job.q.id)
    ensures SameLedger(h, r) && Carries(h, r) && r.sent == h.sent
  {
    if !c.ok then Fail(h, job, false, None, c.record)
    else
      var known := job.(target := ResolvedTarget(job.q, job.previous));
      var r := Persist(h, Record(known, Validating), c.write);
      if c.write then r.(act := Busy(known, Verifying)) else Fail(r, known, false, None, c.record)
  }

  function AtVerifying(h: Host, job: Job, c: Choice): (r: Host)
    ensures Files(h, r, job.q.id)
    ensures SameLedger(h, r) && Carries(h, r) && r.sent == h.sent
  {
    if !c.ok || h.stopped then Fail(h, job, false, None, c.record)
    else
      var r := Persist(h, Record(job, Draining), c.write);
      if c.write then Manage(r, job.prior, true).(act := Busy(job, DrainingOld))
        else Fail(r, job, false, None, c.record)
  }

  /** Drained or killed: either way the step waits for the exit of the old session. */
  function AtDraining(h: Host, job: Job, c: Choice): (r: Host)
    ensures Files(h, r, job.q.id)
    ensures SameLedger(h, r) && Carries(h, r) && r.sent == h.sent
  {
    if Alive(h, job.prior) then h
    else
      var r := Deactivate(h, job.prior);
      if h.stopped then Fail(r, job, true, None, c.record)
      else
        var p := Persist(r, Record(job, Starting), c.write);
        if c.write then p.(act := Busy(job, Launching)) else Fail(p, job, true, None, c.record)
  }

  function AtLaunching(h: Host, job: Job, c: Choice): Host {
    if h.stopped then Fail(h, job, true, None, c.record)
    else Spawn(h, job.target).(act := Busy(job, AwaitReady(|h.sessions|)))
  }

  /** A READY, or a deadline, an error or an exit before it (`!ok`). */
  function AtAwaitReady(h: Host, job: Job, i: SessionId, c: Choice): (r: Host)
    requires i < |h.sessions|
    ensures Files(h, r, job.q.id)
    ensures SameLedger(h, r) && Carries(h, r) && r.sent == h.sent
  {
    if !c.ok || !Alive(h, i) then Manage(h, i, true).(act := Busy(job, Killing(i)))
    else
      var r := Put(h, i, h.sessions[i].(ready := true, fence := c.fence));
      if c.fence <= job.fence then r.(act := Busy(job, Killing(i)))
      else r.(fences := h.fences + [c.fence], act := Busy(job, Stabilizing(i)))
  }

  function AtKilling(h: Host, job: Job, i: SessionId, c: Choice): (r: Host)
    ensures Files(h, r, job.q.id)
    ensures SameLedger(h, r) && Carries(h, r) && r.sent == h.sent
  {
    if Alive(h, i) then h else Fail(Deactivate(h, i), job, true, None, c.record)
  }

  function AtStabilizing(h: Host, job: Job, i: SessionId, c: Choice): (r: Host)
    ensures Files(h, r, job.q.id)
    ensures SameLedger(h, r) && Carries(h, r) && r.sent == h.sent
  {
    if !c.ok || h.stopped || !Alive(h, i) then Fail(h, job, true, Some(i), c.record)
    else if job.target == job.previous then h.(act := Busy(job, Linked(i)))
    else
      var r := Link(h, job.target, c.moved);
      if c.write && c.moved then r.(act := Busy(job, Linked(i))) else Fail(r, job, true, Some(i), c.record)
  }

  function AtLinked(h: Host, job: Job, i: SessionId, c: Choice): (r: Host)
    ensures Files(h, r, job.q.id)
    ensures SameLedger(h, r) && Carries(h, r) && r.sent == h.sent
  {
    if h.stopped then h.(act := Idle)
    else if !Alive(h, i) then Fail(h, job, true, Some(i), c.record)
    else
      var r := Persist(h, Record(job, Committed), c.write);
      if c.write then r.(act := Busy(job, Settling(i))) else Fail(r, job, true, Some(i), c.record)
  }

  /** The last check before the result is sent; failing it sends a committed activation to rollback. */
  function AtSettling(h: Host, job: Job, i: SessionId, c: Choice): (r: Host)
    ensures Files(h, r, job.q.id)
    ensures SameLedger(h, r) && Carries(h, r) && Speaks(h, r)
  {
    if !Alive(h, i)
      then Fail(h.(marks := h.marks.(exposed := h.marks.exposed || !h.stopped)), job, true, Some(i), c.record)
    else Send(Manage(h, i, false), i, Succeeded, job.q.id, job.target).(act := Idle)
  }

  function AtFailSettling(cfg: Config, h: Host, job: Job, c: Choice): (r: Host)
    ensures Carries(h, r) && Speaks(h, r)
  {
    var r := Allow(cfg, h, job.prior, c.now, c.write);
    if !r.up then r else Send(r, job.prior, HasFailed, job.q.id, job.previous).(act := Idle)
  }

  // ---------------------------------------------------------------- rollback steps

  function AtRollbackVerifying(h: Host, job: Job, c: Choice): (r: Host)
    ensures Files(h, r, job.q.id)
    ensures SameLedger(h, r) && Carries(h, r) && r.sent == h.sent
  {
    if !c.ok then RollbackFail(h, job, c.record)
    else if h.stopped then h.(act := Idle)
    else
      var r := Relink(h, job.previous, c.moved);
      if c.write && c.moved then r.(act := Busy(job, RollbackLaunching)) else RollbackFail(r, job, c.record)
  }

  function AtRollbackLaunching(h: Host, job: Job): Host {
    if h.stopped then h.(act := Idle)
    else Spawn(h, job.previous).(act := Busy(job, RollbackReady(|h.sessions|)))
  }

  function AtRollbackReady(h: Host, job: Job, i: SessionId, c: Choice): (r: Host)
    requires i < |h.sessions|
    ensures Files(h, r, job.q.id)
    ensures SameLedger(h, r) && Carries(h, r) && r.sent == h.sent
  {
    if !c.ok || !Alive(h, i) then Manage(h, i, true).(act := Busy(job, RollbackKilling(i)))
    else
      var r := Put(h, i, h.sessions[i].(ready := true, fence := c.fence));
      if c.fence <= job.fence then r.(act := Busy(job, RollbackKilling(i)))
      else
        var named := job.(target := ResolvedTarget(job.q, job.previous));
        var p := Persist(r.(fences := h.fences + [c.fence]), Record(named, RolledBack), c.write);
        if c.write then p.(act := Busy(job, RollbackSettling(i))) else RollbackFail(p, job, c.record)
  }

  function AtRollbackSettling(cfg: Config, h: Host, job: Job, i: SessionId, c: Choice): (r: Host)
    ensures Carries(h, r) && Speaks(h, r)
  {
    var r := Allow(cfg, h, i, c.now, c.write);
    if !r.up then r else Send(r, i, WasRolledBack, job.q.id, job.previous).(act := Idle)
  }

  function OnAdvance(cfg: Config, h: Host, c: Choice): Host {
    if !h.up || h.act.Idle? || c.now < h.ledger.clock then h
    else
      var job := h.act.job;
      match h.act.at
      case Resolving => AtResolving(h, job, c)
      case Verifying => AtVerifying(h, job, c)
      case DrainingOld => AtDraining(h, job, c)
      case Launching => AtLaunching(h, job, c)
      case AwaitReady(i) => if i < |h.sessions| then AtAwaitReady(h, job, i, c) else h
      case Killing(i) => AtKilling(h, job, i, c)
      case Stabilizing(i) => AtStabilizing(h, job, i, c)
      case Linked(i) => AtLinked(h, job, i, c)
      case Settling(i) => AtSettling(h, job, i, c)
      case FailSettling => AtFailSettling(cfg, h, job, c)
      case RollbackStopping(i) => if Alive(h, i) then h else h.(act := Busy(job, RollbackVerifying))
      case RollbackVerifying => AtRollbackVerifying(h, job, c)
      case RollbackLaunching => AtRollbackLaunching(h, job)
      case RollbackReady(i) => if i < |h.sessions| then AtRollbackReady(h, job, i, c) else h
      case RollbackKilling(i) => if Alive(h, i) then h else RollbackFail(Deactivate(h, i), job, c.record)
      case RollbackSettling(i) => AtRollbackSettling(cfg, h, job, i, c)
      case AbortStopping(i) => if Alive(h, i) then h else h.(act := Idle)
      case FatalStopping(i) => if Alive(h, i) then h else Down(h)
  }

  // ---------------------------------------------------------------- start, restart, close

  /** `start` up to the first spawn: read, refuse over budget, prune, resolve and verify. */
  function OnBoot(cfg: Config, h: Host, now: int, write: bool, verified: bool, closed: bool): Host {
    if h.up || now < h.ledger.clock then h
    else
      var recent := Within(h.durable.crashes, now - cfg.window);
      var r := h.(ledger := h.ledger.(clock := now));
      if |recent| > cfg.maxCrashes || (|recent| != |h.durable.crashes| && !write) then r
      else
        var p := r.(durable := h.durable.(crashes := recent), ledger := r.ledger.(pruned := now));
        if !verified then p
        else Spawn(p.(up := true, stopped := closed, memory := h.durable.activation, crashes := recent), h.durable.link)
             .(boot := AwaitBoot)
  }

  /** READY of the boot session, and `reconcileRecoveredActivation` up to its first await. */
  function OnBootReady(h: Host, c: Choice): Host {
    if !h.up || !h.boot.AwaitBoot? || !Alive(h, 0) then h
    else
      var r := Put(h, 0, h.sessions[0].(ready := true, fence := c.fence, managed := false))
               .(fences := h.fences + [c.fence], boot := Booted);
      if h.memory.None? then r
      else if Terminal(h.memory.value.phase) then SendRecord(r, 0, h.memory.value)
      else
        var a := h.memory.value;
        var p := Persist(r, a.(phase := if h.sessions[0].release == a.target then Committed else RolledBack), c.write);
        if c.write then p.(boot := Reporting(a.id))
        else (if p.active.Some? then Stop(p, p.active.value) else p).(stopped := true, boot := BootStopping)
  }

  function OnBootUnready(h: Host): Host {
    if !h.up || !h.boot.AwaitBoot? then h
    else Manage(h, 0, true).(stopped := true, boot := BootStopping)
  }

  /** A failed start counts as a crash once its child is gone; the process then exits. */
  function OnBootGiveUp(cfg: Config, h: Host, c: Choice): Host {
    if !h.up || !h.boot.BootStopping? || Alive(h, 0) || c.now < h.ledger.clock then h
    else Down(RecordCrash(cfg, Deactivate(h, 0), c.now, c.write, false))
  }

  /** The end of `reconcileRecoveredActivation`: it reads the record again after its write. */
  function OnReport(h: Host): Host {
    if !h.up || !h.boot.Reporting? then h
    else
      var r := h.(boot := Booted, marks := h.marks.(overtaken := false));
      if h.memory.None? then r
      else
        var a := h.memory.value;
        Deliver(r, 0, VerdictOf(a), a.id, NamedRelease(a), h.marks.overtaken)
  }

  function OnExit(cfg: Config, h: Host, i: SessionId, c: Choice): Host {
    if !h.up || !Alive(h, i) || c.now < h.ledger.clock then h
    else
      var r := Put(h, i, h.sessions[i].(alive := false));
      if Unexpected(r, i) then CrashExit(cfg, r, i, c.now, c.write) else r
  }

  /** One turn of the crash restart loop. */
  function OnRestart(cfg: Config, h: Host, c: Choice): Host {
    if !h.up || c.now < h.ledger.clock then h
    else
      match h.restart
      case NoRestart => h
      case Delay(f) =>
        if h.stopped then h.(restart := NoRestart)
        else if !c.ok then Down(h)
        else h.(restart := RestartLaunching(f, h.durable.link))
      case RestartLaunching(f, release) =>
        if h.stopped then h.(restart := NoRestart)
        else Spawn(h, release).(restart := RestartReady(f, |h.sessions|))
      case RestartReady(f, i) =>
        if i >= |h.sessions| then h
        else if !c.ok || !Alive(h, i) then Manage(h, i, true).(restart := RestartKilling(f, i))
        else
          var r := Put(h, i, h.sessions[i].(ready := true, fence := c.fence));
          if c.fence <= f then r.(restart := RestartKilling(f, i))
          else Manage(r.(fences := h.fences + [c.fence]), i, false).(restart := NoRestart)
      case RestartKilling(f, i) =>
        if Alive(h, i) then h
        else if h.stopped then Deactivate(h, i).(restart := NoRestart)
        else
          var r := RecordCrash(cfg, Deactivate(h, i), c.now, c.write, true);
          if r.up then r.(restart := Delay(f)) else r
  }

  function OnClose(h: Host): Host {
    if !h.up then h
    else if h.active.Some? then Stop(h, h.active.value).(stopped := true)
    else h.(stopped := true)
  }

  function Next(cfg: Config, h: Host, e: Event): Host {
    match e
    case Boot(now, write, verified, closed) => OnBoot(cfg, h, now, write, verified, closed)
    case BootReady(c) => OnBootReady(h, c)
    case BootUnready => OnBootUnready(h)
    case BootGiveUp(c) => OnBootGiveUp(cfg, h, c)
    case Report => OnReport(h)
    case Exit(i, c) => OnExit(cfg, h, i, c)
    case LateReady(c) => OnLateReady(h, c)
    case Activate(q, c) => OnActivate(h, q, c)
    case Advance(c) => OnAdvance(cfg, h, c)
    case Restart(c) => OnRestart(cfg, h, c)
    case Close => OnClose(h)
    case HostCrash => if h.up then Down(h) else h
  }

  /** An installation that was never started: a link, no activation record, no crashes. */
  predicate Initial(h: Host) {
    && !h.up && !h.stopped && h.durable.activation.None? && h.durable.crashes == []
    && h.memory.None? && h.crashes == [] && h.sessions == [] && h.active.None?
    && h.act.Idle? && h.boot.Booted? && h.restart.NoRestart?
    && h.ledger.pruned <= h.ledger.clock && h.ledger.recorded == [] && h.fences == [] && h.sent == []
    && h.marks == Marks(false, false, false, false, false)
  }

  function Run(cfg: Config, h: Host, events: seq<Event>): Host
    decreases |events|
  {
    if events == [] then h else Run(cfg, Next(cfg, h, events[0]), events[1..])
  }
}
