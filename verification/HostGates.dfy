/** What an activation may do only after an await succeeded: resolving the target, verifying it, waiting for the
    candidate to stay up, and verifying the previous release before a rollback. Also what a stopped Host no
    longer does, and that good answers lead to a committed activation. */
module HostGates {
  import opened Wrappers
  import opened HostProtocol
  import opened HostSafety
  import opened HostReports
  import opened HostUsurpation

  // ---------------------------------------------------------------- the four gates

  /** Named after the record that may be written behind it. */
  datatype Gate = ToValidate | ToDrain | ToCommit | ToRestore

  /** The await whose success opens the gate. */
  predicate Awaits(g: Gate, at: Stage) {
    match g
    case ToValidate => at.Resolving?
    case ToDrain => at.Verifying?
    case ToCommit => at.Stabilizing?
    case ToRestore => at.RollbackVerifying?
  }

  predicate PhaseBehind(g: Gate, phase: Phase) {
    match g
    case ToValidate => phase in {Validating, Phase.Draining, Starting, Committed}
    case ToDrain => phase in {Phase.Draining, Starting, Committed}
    case ToCommit => phase == Committed
    case ToRestore => phase == RolledBack
  }

  /** The old Generation is drained for it and a candidate is started. */
  predicate Preparing(at: Stage) {
    at.DrainingOld? || at.Launching? || at.AwaitReady? || at.Killing? || at.Stabilizing?
  }

  predicate Committing(at: Stage) {
    at.Linked? || at.Settling?
  }

  predicate StageBehind(g: Gate, at: Stage) {
    match g
    case ToValidate => at.Verifying? || Preparing(at) || Committing(at)
    case ToDrain => Preparing(at) || Committing(at)
    case ToCommit => Committing(at)
    case ToRestore => at.RollbackLaunching? || at.RollbackReady? || at.RollbackKilling? || at.RollbackSettling?
  }

  /** The result that needs the gate. */
  predicate ResultBehind(g: Gate, verdict: Verdict) {
    if g.ToRestore? then verdict.WasRolledBack? else verdict.Succeeded?
  }

  /** Nothing of request `id` has come past the gate: no record of it, in the file or in memory, and no task. */
  predicate Before(h: Host, id: nat, g: Gate) {
    && (h.durable.activation.Some? && h.durable.activation.value.id == id ==>
          !PhaseBehind(g, h.durable.activation.value.phase))
    && (h.memory.Some? && h.memory.value.id == id ==> !PhaseBehind(g, h.memory.value.phase))
    && (h.act.Busy? && h.act.job.q.id == id ==> !StageBehind(g, h.act.at))
  }

  /** The awaited operation succeeds. */
  predicate Opens(h: Host, e: Event, id: nat, g: Gate) {
    h.up && h.act.Busy? && h.act.job.q.id == id && Awaits(g, h.act.at) && e.Advance? && e.choice.ok
  }

  /** A Host start decides the unfinished record by the release it has started. */
  predicate Recovers(h: Host, e: Event, id: nat, g: Gate) {
    && e.BootReady? && h.boot.AwaitBoot? && Alive(h, 0)
    && h.memory.Some? && h.memory.value.id == id && !Terminal(h.memory.value.phase)
    && (g.ToRestore? <==> h.sessions[0].release != h.memory.value.target)
  }

  // ---------------------------------------------------------------- one step

  /** A step of another request's task, or of none. */
  lemma OthersStayBefore(h: Host, r: Host, other: nat, id: nat, g: Gate)
    requires Before(h, id, g) && other != id && Files(h, r, other) && (r.up || Reset(r))
    ensures Before(r, id, g)
  {
  }

  lemma RewriteStaysBefore(h: Host, m: Host, r: Host, id: nat, g: Gate)
    requires Before(h, id, g) && Rewrites(h, m) && h.up
    requires r.memory == m.memory && r.durable == m.durable && r.up == m.up && (r.act == m.act || r.act.Idle?)
    ensures Before(r, id, g)
  {
  }

  /** A step that gives up: nothing is recorded for the request but its failure. */
  predicate GivesUp(h: Host, r: Host, q: Request) {
    && (r.memory == h.memory || (r.memory.Some? && r.memory.value.id == q.id && r.memory.value.phase.Failed?)
        || r.memory.None?)
    && (r.durable.activation in {h.durable.activation, h.memory}
        || (r.durable.activation.Some? && r.durable.activation.value.id == q.id
            && r.durable.activation.value.phase.Failed?))
    && (r.act.Idle?
        || (r.act.job.q == q
            && (r.act.at.FailSettling? || r.act.at.FatalStopping? || r.act.at.AbortStopping?
                || r.act.at.RollbackStopping? || r.act.at.RollbackVerifying?)))
  }

  lemma FailGivesUp(h: Host, job: Job, oldStopped: bool, candidate: Option<SessionId>, write: bool)
    ensures GivesUp(h, Fail(h, job, oldStopped, candidate, write), job.q)
  {
  }

  lemma RollbackFailGivesUp(h: Host, job: Job, write: bool)
    ensures GivesUp(h, RollbackFail(h, job, write), job.q)
  {
  }

  lemma GivenUpBefore(h: Host, r: Host, q: Request, g: Gate)
    requires Before(h.(act := Idle), q.id, g) && GivesUp(h, r, q)
    ensures Before(r, q.id, g)
  {
  }

  /** A step that keeps all records, or writes one that does not lie behind the gate. */
  predicate Notes(h: Host, r: Host, id: nat, g: Gate) {
    && (r.memory == h.memory
        || (r.memory.Some? && r.memory.value.id == id && !PhaseBehind(g, r.memory.value.phase)))
    && r.durable.activation in {h.durable.activation, r.memory}
  }

  lemma NotedBefore(h: Host, m: Host, id: nat, g: Gate)
    requires Before(h, id, g) && Notes(h, m, id, g)
    ensures Before(m.(act := Idle), id, g)
    ensures (m.act.Busy? && m.act.job.q.id == id ==> !StageBehind(g, m.act.at)) ==> Before(m, id, g)
  {
  }

  /** The task moves on, gives up after at most one such record, or stays. */
  ghost predicate Proceeds(h: Host, r: Host, g: Gate)
    requires h.act.Busy?
  {
    var q := h.act.job.q;
    || (Notes(h, r, q.id, g) && (r.act.Idle? || (r.act.job.q == q && !StageBehind(g, r.act.at))))
    || exists m :: Notes(h, m, q.id, g) && GivesUp(m, r, q)
  }

  lemma ProceedsBefore(h: Host, r: Host, g: Gate)
    requires h.act.Busy? && Before(h, h.act.job.q.id, g) && Proceeds(h, r, g)
    ensures Before(r, h.act.job.q.id, g)
  {
    var q := h.act.job.q;
    hide Before, Notes, GivesUp, PhaseBehind, StageBehind;
    if m :| Notes(h, m, q.id, g) && GivesUp(m, r, q) {
      NotedBefore(h, m, q.id, g);
      GivenUpBefore(m, r, q, g);
    } else {
      NotedBefore(h, r, q.id, g);
    }
  }

  lemma ResolvingProceeds(h: Host, c: Choice, g: Gate)
    requires h.act.Busy? && h.act.at.Resolving? && !(g.ToValidate? && c.ok)
    ensures Proceeds(h, AtResolving(h, h.act.job, c), g)
  {
    hide Fail, GivesUp;
    var job := h.act.job;
    var known := job.(target := ResolvedTarget(job.q, job.previous));
    FailGivesUp(h, job, false, None, c.record);
    FailGivesUp(Persist(h, Record(known, Validating), c.write), known, false, None, c.record);
    if c.ok { assert Notes(h, Persist(h, Record(known, Validating), c.write), job.q.id, g); }
  }

  lemma VerifyingProceeds(h: Host, c: Choice, g: Gate)
    requires h.act.Busy? && h.act.at.Verifying? && !(g.ToDrain? && c.ok) && !g.ToValidate?
    ensures Proceeds(h, AtVerifying(h, h.act.job, c), g)
  {
    hide Fail, GivesUp;
    var job := h.act.job;
    var m := Persist(h, Record(job, Phase.Draining), c.write);
    FailGivesUp(h, job, false, None, c.record);
    FailGivesUp(m, job, false, None, c.record);
    if !g.ToDrain? { assert Notes(h, m, job.q.id, g); }
  }

  lemma DrainingProceeds(h: Host, c: Choice, g: Gate)
    requires h.act.Busy? && h.act.at.DrainingOld? && !g.ToValidate? && !g.ToDrain?
    ensures Proceeds(h, AtDraining(h, h.act.job, c), g)
  {
    hide Fail, GivesUp;
    var job := h.act.job;
    var r := Deactivate(h, job.prior);
    FailGivesUp(r, job, true, None, c.record);
    FailGivesUp(Persist(r, Record(job, Starting), c.write), job, true, None, c.record);
    assert Notes(h, r, job.q.id, g) && Notes(h, Persist(r, Record(job, Starting), c.write), job.q.id, g);
  }

  /** Launching a candidate, its READY, and its end before that. */
  lemma LaunchProceeds(cfg: Config, h: Host, c: Choice, g: Gate)
    requires h.up && h.act.Busy? && (h.act.at.Launching? || h.act.at.AwaitReady? || h.act.at.Killing?)
    requires !g.ToValidate? && !g.ToDrain?
    ensures Proceeds(h, OnAdvance(cfg, h, c), g)
  {
    hide Fail, GivesUp;
    var job := h.act.job;
    FailGivesUp(h, job, true, None, c.record);
    if h.act.at.Killing? { FailGivesUp(Deactivate(h, h.act.at.c), job, true, None, c.record); }
    assert Notes(h, h, job.q.id, g);
    if h.act.at.Killing? { assert Notes(h, Deactivate(h, h.act.at.c), job.q.id, g); }
  }

  lemma StabilizingProceeds(h: Host, c: Choice, g: Gate)
    requires h.act.Busy? && h.act.at.Stabilizing? && !g.ToValidate? && !g.ToDrain? && !(g.ToCommit? && c.ok)
    ensures Proceeds(h, AtStabilizing(h, h.act.job, h.act.at.c, c), g)
  {
    hide Fail, GivesUp;
    var job, i := h.act.job, h.act.at.c;
    FailGivesUp(h, job, true, Some(i), c.record);
    FailGivesUp(Link(h, job.target, c.moved), job, true, Some(i), c.record);
    assert Notes(h, h, job.q.id, g) && Notes(h, Link(h, job.target, c.moved), job.q.id, g);
  }

  lemma LinkedProceeds(h: Host, c: Choice)
    requires h.act.Busy? && h.act.at.Linked?
    ensures Proceeds(h, AtLinked(h, h.act.job, h.act.at.c, c), ToRestore)
  {
    hide Fail, GivesUp;
    var job, i := h.act.job, h.act.at.c;
    var m := Persist(h, Record(job, Committed), c.write);
    FailGivesUp(h, job, true, Some(i), c.record);
    FailGivesUp(m, job, true, Some(i), c.record);
    assert Notes(h, h, job.q.id, ToRestore) && Notes(h, m, job.q.id, ToRestore);
  }

  lemma SettledProceeds(h: Host, c: Choice)
    requires h.act.Busy? && h.act.at.Settling?
    ensures Proceeds(h, AtSettling(h, h.act.job, h.act.at.c, c), ToRestore)
  {
    hide Fail, GivesUp, Deliver;
    var job, i := h.act.job, h.act.at.c;
    var r := h.(marks := h.marks.(exposed := h.marks.exposed || !h.stopped));
    var settled := AtSettling(h, job, i, c);
    if Alive(h, i) {
      assert settled.memory == h.memory && settled.durable == h.durable && settled.act.Idle?;
    } else {
      assert settled == Fail(r, job, true, Some(i), c.record);
      FailGivesUp(r, job, true, Some(i), c.record);
      assert Notes(h, r, job.q.id, ToRestore);
    }
    hide AtSettling;
  }

  /** The first steps of a rollback. */
  lemma UndoProceeds(h: Host, c: Choice, g: Gate)
    requires h.act.Busy? && h.act.at.RollbackVerifying? && !(g.ToRestore? && c.ok)
    ensures Proceeds(h, AtRollbackVerifying(h, h.act.job, c), g)
  {
    hide RollbackFail, GivesUp;
    var job := h.act.job;
    RollbackFailGivesUp(h, job, c.record);
    RollbackFailGivesUp(Relink(h, job.previous, c.moved), job, c.record);
    assert Notes(h, h, job.q.id, g) && Notes(h, Relink(h, job.previous, c.moved), job.q.id, g);
  }

  lemma RestoringProceeds(h: Host, c: Choice, g: Gate)
    requires h.act.Busy? && h.act.at.RollbackReady? && h.act.at.c < |h.sessions| && !g.ToRestore?
    ensures Proceeds(h, AtRollbackReady(h, h.act.job, h.act.at.c, c), g)
  {
    hide RollbackFail, GivesUp;
    var job, i := h.act.job, h.act.at.c;
    var r := Put(h, i, h.sessions[i].(ready := true, fence := c.fence)).(fences := h.fences + [c.fence]);
    var m := Persist(r, Record(job.(target := ResolvedTarget(job.q, job.previous)), RolledBack), c.write);
    RollbackFailGivesUp(m, job, c.record);
    assert Notes(h, m, job.q.id, g);
  }

  lemma UndoneProceeds(cfg: Config, h: Host, c: Choice, g: Gate)
    requires h.up && h.act.Busy?
    requires h.act.at.RollbackStopping? || h.act.at.RollbackLaunching? || h.act.at.RollbackKilling?
      || h.act.at.AbortStopping?
    requires g.ToRestore? ==> h.act.at.RollbackStopping? || h.act.at.AbortStopping?
    ensures Proceeds(h, OnAdvance(cfg, h, c), g)
  {
    hide RollbackFail, GivesUp;
    var job := h.act.job;
    if h.act.at.RollbackKilling? {
      RollbackFailGivesUp(Deactivate(h, h.act.at.c), job, c.record);
      assert Notes(h, Deactivate(h, h.act.at.c), job.q.id, g);
    }
  }

  lemma OwnTaskProceeds(cfg: Config, h: Host, c: Choice, g: Gate)
    requires h.up && h.act.Busy? && !h.act.at.FailSettling? && !h.act.at.RollbackSettling? && !h.act.at.FatalStopping?
    requires !StageBehind(g, h.act.at) && !Opens(h, Advance(c), h.act.job.q.id, g)
    ensures var r := OnAdvance(cfg, h, c); r == h || Proceeds(h, r, g)
  {
    hide AtResolving, AtVerifying, AtDraining, AtAwaitReady, AtKilling, AtStabilizing, AtLinked, AtSettling, Proceeds;
    hide AtRollbackVerifying, AtRollbackReady, RollbackFail;
    if h.ledger.clock <= c.now && OnAdvance(cfg, h, c) != h {
      match h.act.at
      case Resolving => ResolvingProceeds(h, c, g);
      case Verifying => VerifyingProceeds(h, c, g);
      case DrainingOld => DrainingProceeds(h, c, g);
      case Launching => LaunchProceeds(cfg, h, c, g);
      case AwaitReady(_) => LaunchProceeds(cfg, h, c, g);
      case Killing(_) => LaunchProceeds(cfg, h, c, g);
      case Stabilizing(_) => StabilizingProceeds(h, c, g);
      case Linked(_) => LinkedProceeds(h, c);
      case Settling(_) => SettledProceeds(h, c);
      case RollbackVerifying => UndoProceeds(h, c, g);
      case RollbackReady(_) => RestoringProceeds(h, c, g);
      case _ => UndoneProceeds(cfg, h, c, g);
    }
  }

  lemma OwnTaskStaysBefore(cfg: Config, h: Host, c: Choice, g: Gate)
    requires h.up && h.act.Busy? && !h.act.at.FailSettling? && !h.act.at.RollbackSettling?
    requires Before(h, h.act.job.q.id, g) && !Opens(h, Advance(c), h.act.job.q.id, g)
    ensures Before(OnAdvance(cfg, h, c), h.act.job.q.id, g)
  {
    var r := OnAdvance(cfg, h, c);
    assert !StageBehind(g, h.act.at);
    if h.act.at.FatalStopping? {
      assert r == h || r == Down(h);
    } else {
      hide OnAdvance, Opens, StageBehind, Before, Proceeds;
      OwnTaskProceeds(cfg, h, c, g);
      if r != h { ProceedsBefore(h, r, g); }
    }
  }

  lemma SettlingStaysBefore(cfg: Config, h: Host, c: Choice, id: nat, g: Gate)
    requires h.up && h.act.Busy? && (h.act.at.FailSettling? || h.act.at.RollbackSettling?) && Before(h, id, g)
    ensures Before(OnAdvance(cfg, h, c), id, g)
  {
    hide Allow, Deliver;
    var i := if h.act.at.FailSettling? then h.act.job.prior else h.act.at.c;
    AllowRewrites(cfg, h, i, c.now, c.write);
    if h.ledger.clock <= c.now { RewriteStaysBefore(h, Allow(cfg, h, i, c.now, c.write), OnAdvance(cfg, h, c), id, g); }
  }

  lemma OtherTaskStaysBefore(cfg: Config, h: Host, c: Choice, id: nat, g: Gate)
    requires h.up && h.act.Busy? && h.act.job.q.id != id && Before(h, id, g)
    requires !h.act.at.FailSettling? && !h.act.at.RollbackSettling?
    ensures Before(OnAdvance(cfg, h, c), id, g)
  {
    hide AtResolving, AtVerifying, AtDraining, AtAwaitReady, AtKilling, AtStabilizing, AtLinked, AtSettling, Before;
    hide AtRollbackVerifying, AtRollbackReady, RollbackFail, Fail;
    var r := OnAdvance(cfg, h, c);
    if Plain(h.act.at) && (!h.act.at.Launching? || !h.stopped) {
      PassiveStaysBefore(h, r, id, g);
    } else {
      assert r == h || (Files(h, r, h.act.job.q.id) && Carries(h, r));
      hide OnAdvance;
      if r != h { OthersStayBefore(h, r, h.act.job.q.id, id, g); }
    }
  }

  /** No record is touched, and the task is not the request's. */
  lemma PassiveStaysBefore(h: Host, r: Host, id: nat, g: Gate)
    requires Before(h, id, g) && r.durable.activation == h.durable.activation && r.memory in {h.memory, None}
    requires r.act.Idle? || r.act.job.q.id != id || r.act == h.act
    ensures Before(r, id, g)
  {
  }

  lemma AdvanceStaysBefore(cfg: Config, h: Host, c: Choice, id: nat, g: Gate)
    requires Before(h, id, g) && !Opens(h, Advance(c), id, g)
    ensures Before(OnAdvance(cfg, h, c), id, g)
  {
    if h.up && h.act.Busy? {
      if h.act.at.FailSettling? || h.act.at.RollbackSettling? {
        SettlingStaysBefore(cfg, h, c, id, g);
      } else if h.act.job.q.id != id {
        OtherTaskStaysBefore(cfg, h, c, id, g);
      } else {
        OwnTaskStaysBefore(cfg, h, c, g);
      }
      hide OnAdvance, Before;
    }
  }

  lemma ActivateStaysBefore(h: Host, q: Request, c: Choice, id: nat, g: Gate)
    requires Before(h, id, g)
    ensures Before(OnActivate(h, q, c), id, g)
  {
    hide Fail, Deliver;
    if Accepts(h, q) {
      var i := h.active.value;
      var previous := h.sessions[i].release;
      var job := Job(q, i, previous, previous, h.sessions[i].fence);
      var m := Manage(Admitted(h, q), i, true).(act := Busy(job, Resolving));
      assert Before(m, id, g);
      if q.id == id {
        FailGivesUp(m, job, false, None, c.record);
        GivenUpBefore(m, Fail(m, job, false, None, c.record), q, g);
      } else {
        hide Before;
        OthersStayBefore(m, Fail(m, job, false, None, c.record), q.id, id, g);
      }
    }
  }

  lemma BootStaysBefore(h: Host, c: Choice, id: nat, g: Gate)
    requires Before(h, id, g) && !Recovers(h, BootReady(c), id, g)
    ensures Before(OnBootReady(h, c), id, g)
  {
    hide Deliver;
  }

  lemma ExitStaysBefore(cfg: Config, h: Host, i: SessionId, c: Choice, id: nat, g: Gate)
    requires Before(h, id, g)
    ensures Before(OnExit(cfg, h, i, c), id, g)
  {
    hide RecordCrash;
    if h.up && Alive(h, i) && h.ledger.clock <= c.now {
      var d := Put(h, i, h.sessions[i].(alive := false)).(active := None);
      RecordRewrites(cfg, d, c.now, c.write, true);
      var m := RecordCrash(cfg, d, c.now, c.write, true);
      RewriteStaysBefore(d, m, m, id, g);
    }
  }

  lemma RestartStaysBefore(cfg: Config, h: Host, c: Choice, id: nat, g: Gate)
    requires Before(h, id, g)
    ensures Before(OnRestart(cfg, h, c), id, g)
  {
    hide RecordCrash, Before;
    var r := OnRestart(cfg, h, c);
    if h.up && h.ledger.clock <= c.now && h.restart.RestartKilling? && !h.stopped && !Alive(h, h.restart.c) {
      var d := Deactivate(h, h.restart.c);
      RecordRewrites(cfg, d, c.now, c.write, true);
      PassiveStaysBefore(h, d, id, g);
      RewriteStaysBefore(d, RecordCrash(cfg, d, c.now, c.write, true), r, id, g);
    } else {
      PassiveStaysBefore(h, r, id, g);
    }
  }

  lemma GiveUpStaysBefore(cfg: Config, h: Host, c: Choice, id: nat, g: Gate)
    requires Before(h, id, g)
    ensures Before(OnBootGiveUp(cfg, h, c), id, g)
  {
    hide RecordCrash;
    if h.up { RecordRewrites(cfg, Deactivate(h, 0), c.now, c.write, false); }
  }

  lemma QuietStaysBefore(h: Host, r: Host, id: nat, g: Gate)
    requires Before(h, id, g) && Quiet(h, r)
    ensures Before(r, id, g)
  {
  }

  lemma StartStaysBefore(cfg: Config, h: Host, e: Event, id: nat, g: Gate)
    requires Before(h, id, g) && (e.Boot? || e.Report?)
    ensures Before(Next(cfg, h, e), id, g)
  {
    hide Within, Deliver;
  }

  /** Nothing but the gate's own await, or a Host start that recovers the record, brings a request past it. */
  lemma StepStaysBefore(cfg: Config, h: Host, e: Event, id: nat, g: Gate)
    requires Before(h, id, g) && !Opens(h, e, id, g) && !Recovers(h, e, id, g)
    ensures Before(Next(cfg, h, e), id, g)
  {
    match e
    case Advance(c) => AdvanceStaysBefore(cfg, h, c, id, g);
    case Activate(q, c) => ActivateStaysBefore(h, q, c, id, g);
    case BootReady(c) => BootStaysBefore(h, c, id, g);
    case Exit(i, c) => ExitStaysBefore(cfg, h, i, c, id, g);
    case Restart(c) => RestartStaysBefore(cfg, h, c, id, g);
    case BootGiveUp(c) => GiveUpStaysBefore(cfg, h, c, id, g);
    case Boot(_, _, _, _) => StartStaysBefore(cfg, h, e, id, g);
    case Report => StartStaysBefore(cfg, h, e, id, g);
    case _ => OtherQuiet(cfg, h, e); QuietStaysBefore(h, Next(cfg, h, e), id, g);
    hide OnAdvance, OnActivate, OnRestart, OnExit, OnBootReady, OnBootGiveUp, OnBoot, OnReport, OnClose, OnLateReady,
      OnBootUnready, Before;
  }

  // ---------------------------------------------------------------- acceptance starts before every gate

  /** Between activations the record in memory is the durable one. */
  predicate InStep(h: Host) {
    && (h.up && !h.stopped
        && (h.act.Idle? || h.act.at.Settling? || h.act.at.FailSettling? || h.act.at.RollbackSettling?) ==>
          h.memory == h.durable.activation)
    && (h.act.Busy? && h.act.at.AbortStopping? ==> h.stopped)
    && (!h.up ==> h.act.Idle?)
  }

  lemma FailsInStep()
    ensures forall h: Host, job, oldStopped, candidate, write {:trigger Fail(h, job, oldStopped, candidate, write)} ::
              h.up ==> InStep(Fail(h, job, oldStopped, candidate, write))
    ensures forall h: Host, job, write {:trigger RollbackFail(h, job, write)} ::
              h.up ==> InStep(RollbackFail(h, job, write))
  {
  }

  lemma ForwardInStep(cfg: Config, h: Host, c: Choice)
    requires InStep(h) && h.up && h.act.Busy?
    requires h.act.at.Resolving? || h.act.at.Verifying? || h.act.at.DrainingOld? || h.act.at.Launching?
      || h.act.at.AwaitReady? || h.act.at.Killing?
    ensures InStep(OnAdvance(cfg, h, c))
  {
    FailsInStep();
    hide Fail;
  }

  lemma CommitInStep(cfg: Config, h: Host, c: Choice)
    requires InStep(h) && h.up && h.act.Busy?
    requires h.act.at.Stabilizing? || h.act.at.Linked? || h.act.at.Settling?
    ensures InStep(OnAdvance(cfg, h, c))
  {
    FailsInStep();
    hide Fail, Deliver;
  }

  lemma BackwardInStep(cfg: Config, h: Host, c: Choice)
    requires InStep(h) && h.up && h.act.Busy?
    requires h.act.at.RollbackStopping? || h.act.at.RollbackVerifying? || h.act.at.RollbackLaunching?
      || h.act.at.RollbackReady? || h.act.at.RollbackKilling? || h.act.at.AbortStopping? || h.act.at.FatalStopping?
    ensures InStep(OnAdvance(cfg, h, c))
  {
    FailsInStep();
    hide RollbackFail;
  }

  /** A crash record writes what is in memory. */
  lemma RewriteInStep(h: Host, m: Host, r: Host)
    requires InStep(h) && Rewrites(h, m) && h.up
    requires r.memory == m.memory && r.durable == m.durable && r.up == m.up && r.stopped == m.stopped
    requires r.act == m.act || (r.act.Idle? && h.memory == h.durable.activation)
    ensures InStep(r)
  {
  }

  lemma SettlingInStep(cfg: Config, h: Host, c: Choice)
    requires InStep(h) && h.up && h.act.Busy? && (h.act.at.FailSettling? || h.act.at.RollbackSettling?)
    ensures InStep(OnAdvance(cfg, h, c))
  {
    hide Allow, Deliver;
    var i := if h.act.at.FailSettling? then h.act.job.prior else h.act.at.c;
    AllowRewrites(cfg, h, i, c.now, c.write);
    if h.ledger.clock <= c.now {
      var m, r := Allow(cfg, h, i, c.now, c.write), OnAdvance(cfg, h, c);
      if h.stopped { assert r.stopped || !r.up; } else { RewriteInStep(h, m, r); }
    }
  }

  lemma AdvanceInStep(cfg: Config, h: Host, c: Choice)
    requires InStep(h)
    ensures InStep(OnAdvance(cfg, h, c))
  {
    if h.up && h.act.Busy? {
      if h.act.at.FailSettling? || h.act.at.RollbackSettling? {
        SettlingInStep(cfg, h, c);
      } else if h.act.at.Stabilizing? || h.act.at.Linked? || h.act.at.Settling? {
        CommitInStep(cfg, h, c);
      } else if h.act.at.Resolving? || h.act.at.Verifying? || h.act.at.DrainingOld? || h.act.at.Launching?
                || h.act.at.AwaitReady? || h.act.at.Killing? {
        ForwardInStep(cfg, h, c);
      } else {
        BackwardInStep(cfg, h, c);
      }
      hide OnAdvance, InStep;
    }
  }

  lemma ActivateInStep(h: Host, q: Request, c: Choice)
    requires InStep(h)
    ensures InStep(OnActivate(h, q, c))
  {
    FailsInStep();
    hide Fail, Deliver;
  }

  lemma ExitInStep(cfg: Config, h: Host, i: SessionId, c: Choice)
    requires InStep(h)
    ensures InStep(OnExit(cfg, h, i, c))
  {
    hide RecordCrash;
    if h.up && Alive(h, i) && h.ledger.clock <= c.now {
      var d := Put(h, i, h.sessions[i].(alive := false)).(active := None);
      RecordRewrites(cfg, d, c.now, c.write, true);
      var m := RecordCrash(cfg, d, c.now, c.write, true);
      RewriteInStep(d, m, m);
    }
  }

  lemma RestartInStep(cfg: Config, h: Host, c: Choice)
    requires InStep(h)
    ensures InStep(OnRestart(cfg, h, c))
  {
    hide RecordCrash;
    if h.up && h.restart.RestartKilling? {
      var d := Deactivate(h, h.restart.c);
      RecordRewrites(cfg, d, c.now, c.write, true);
      var m := RecordCrash(cfg, d, c.now, c.write, true);
      RewriteInStep(d, m, m);
    }
  }

  lemma OtherInStep(cfg: Config, h: Host, e: Event)
    requires InStep(h)
    requires e.Boot? || e.BootReady? || e.BootUnready? || e.BootGiveUp? || e.Report? || e.LateReady? || e.Close?
      || e.HostCrash?
    ensures InStep(Next(cfg, h, e))
  {
    hide OnAdvance, OnActivate, OnRestart, OnExit, RecordCrash, Deliver, Within;
  }

  lemma NextInStep(cfg: Config, h: Host, e: Event)
    requires InStep(h)
    ensures InStep(Next(cfg, h, e))
  {
    match e
    case Advance(c) => AdvanceInStep(cfg, h, c);
    case Activate(q, c) => ActivateInStep(h, q, c);
    case Exit(i, c) => ExitInStep(cfg, h, i, c);
    case Restart(c) => RestartInStep(cfg, h, c);
    case _ => OtherInStep(cfg, h, e);
    hide OnAdvance, OnActivate, OnRestart, OnExit, OnBootReady, OnBootGiveUp, OnBoot, OnReport, OnClose, OnLateReady,
      OnBootUnready, InStep;
  }

  lemma {:induction false} RunInStep(cfg: Config, h: Host, events: seq<Event>)
    requires InStep(h)
    ensures InStep(Run(cfg, h, events))
    decreases |events|
  {
    hide Next, InStep;
    if events != [] {
      NextInStep(cfg, h, events[0]);
      RunInStep(cfg, Next(cfg, h, events[0]), events[1..]);
    }
  }

  lemma AcceptedBefore(cfg: Config, h: Host, e: Event, id: nat, g: Gate)
    requires InStep(h) && AcceptsNow(h, e, id)
    ensures Before(Next(cfg, h, e), id, g)
  {
    assert Before(h, id, g);
    hide Before;
    ActivateStaysBefore(h, e.q, e.choice, id, g);
    assert Next(cfg, h, e) == OnActivate(h, e.q, e.choice) by { ActivateIsNext(cfg, h, e.q, e.choice); }
  }

  // ---------------------------------------------------------------- all runs

  /** Some step of the run opens the gate for the request, or recovers its record. */
  predicate PassedIn(cfg: Config, h: Host, events: seq<Event>, id: nat, g: Gate)
    decreases |events|
  {
    events != []
    && (Opens(h, events[0], id, g) || Recovers(h, events[0], id, g)
        || PassedIn(cfg, Next(cfg, h, events[0]), events[1..], id, g))
  }

  /** Nothing sent since `n` results were out tells of a success, or a rollback, of the request. */
  predicate NothingTold(sent: seq<Sent>, n: nat, id: nat, g: Gate) {
    forall k :: n <= k < |sent| && sent[k].id == id ==> !ResultBehind(g, sent[k].verdict)
  }

  lemma SettlingTells(cfg: Config, h: Host, c: Choice, id: nat, g: Gate)
    requires h.up && h.act.Busy? && (h.act.at.Settling? || h.act.at.FailSettling? || h.act.at.RollbackSettling?)
    requires h.act.job.q.id == id ==> !StageBehind(g, h.act.at)
    ensures NothingTold(OnAdvance(cfg, h, c).sent, |h.sent|, id, g)
  {
    hide Fail, Allow;
  }

  lemma AdvanceTells(cfg: Config, h: Host, c: Choice, id: nat, g: Gate)
    requires Before(h, id, g)
    ensures NothingTold(OnAdvance(cfg, h, c).sent, |h.sent|, id, g)
  {
    if h.up && h.act.Busy? {
      if h.act.at.Settling? || h.act.at.FailSettling? || h.act.at.RollbackSettling? {
        SettlingTells(cfg, h, c, id, g);
      } else {
        hide AtResolving, AtVerifying, AtDraining, AtAwaitReady, AtKilling, AtStabilizing, AtLinked, Fail;
        hide AtRollbackVerifying, AtRollbackReady, RollbackFail;
        assert OnAdvance(cfg, h, c).sent == h.sent;
      }
      hide OnAdvance, Before;
    }
  }

  lemma ReplayTells(h: Host, m: Host, i: SessionId, a: Activation, stray: bool, id: nat, g: Gate)
    requires Before(h, id, g) && h.memory == Some(a) && m.sent == h.sent
    ensures NothingTold(Deliver(m, i, VerdictOf(a), a.id, NamedRelease(a), stray).sent, |h.sent|, id, g)
  {
  }

  lemma ReportTells(h: Host, id: nat, g: Gate)
    requires Before(h, id, g)
    ensures NothingTold(OnReport(h).sent, |h.sent|, id, g)
  {
    hide Before, Deliver, NothingTold;
    assert NothingTold(h.sent, |h.sent|, id, g) by { NothingNew(h.sent, id, g); }
    if h.up && h.boot.Reporting? && h.memory.Some? {
      var r := h.(boot := Booted, marks := h.marks.(overtaken := false));
      ReplayTells(h, r, 0, h.memory.value, h.marks.overtaken, id, g);
    }
  }

  lemma NothingNew(sent: seq<Sent>, id: nat, g: Gate)
    ensures NothingTold(sent, |sent|, id, g)
  {
  }

  lemma BootTells(h: Host, c: Choice, id: nat, g: Gate)
    requires Before(h, id, g)
    ensures NothingTold(OnBootReady(h, c).sent, |h.sent|, id, g)
  {
    hide Before, Deliver, NothingTold;
    assert NothingTold(h.sent, |h.sent|, id, g) by { NothingNew(h.sent, id, g); }
    if h.up && h.boot.AwaitBoot? && Alive(h, 0) && h.memory.Some? && Terminal(h.memory.value.phase) {
      var a := h.memory.value;
      var r := Put(h, 0, h.sessions[0].(ready := true, fence := c.fence, managed := false))
               .(fences := h.fences + [c.fence], boot := Booted);
      ReplayTells(h, r, 0, a, false, id, g);
      assert OnBootReady(h, c) == Deliver(r, 0, VerdictOf(a), a.id, NamedRelease(a), false);
    } else {
      assert OnBootReady(h, c).sent == h.sent;
    }
    hide OnBootReady;
  }

  lemma ActivateTells(h: Host, q: Request, c: Choice, id: nat, g: Gate)
    requires Before(h, id, g)
    ensures NothingTold(OnActivate(h, q, c).sent, |h.sent|, id, g)
  {
    hide Before, Fail;
    if MayActivate(h) && h.memory.Some? { ReplayTells(h, h, h.active.value, h.memory.value, false, id, g); }
  }

  lemma OtherTells(cfg: Config, h: Host, e: Event, id: nat, g: Gate)
    requires Before(h, id, g) && !e.Advance?
    ensures NothingTold(Next(cfg, h, e).sent, |h.sent|, id, g)
  {
    match e
    case BootReady(c) => BootTells(h, c, id, g); hide OnBootReady;
    case Report => ReportTells(h, id, g); hide OnReport;
    case Activate(q, c) => ActivateTells(h, q, c, id, g); hide OnActivate;
    case _ => OthersSilent(cfg, h, e); hide Next;
    hide Before;
  }

  lemma OthersSilent(cfg: Config, h: Host, e: Event)
    requires !e.Advance? && !e.BootReady? && !e.Report? && !e.Activate?
    ensures Next(cfg, h, e).sent == h.sent
  {
    hide OnAdvance, OnActivate, OnBootReady, OnReport, RecordCrash, Within;
  }

  lemma {:induction false} RunStaysBefore(cfg: Config, h: Host, events: seq<Event>, n: nat, id: nat, g: Gate)
    requires Filed(h) && Before(h, id, g) && NothingTold(h.sent, n, id, g) && !PassedIn(cfg, h, events, id, g)
    ensures Before(Run(cfg, h, events), id, g) && NothingTold(Run(cfg, h, events).sent, n, id, g)
    decreases |events|
  {
    hide Next, Filed, Before, Opens, Recovers;
    if events != [] {
      var e := events[0];
      var r := Next(cfg, h, e);
      NextFiled(cfg, h, e);
      NextDead(cfg, h, e, id);
      StepStaysBefore(cfg, h, e, id, g);
      if e.Advance? {
        AdvanceTells(cfg, h, e.choice, id, g);
        assert r == OnAdvance(cfg, h, e.choice) by { AdvanceIsNext(cfg, h, e.choice); }
      } else {
        OtherTells(cfg, h, e, id, g);
      }
      assert NothingTold(r.sent, n, id, g) by {
        hide OnAdvance, Dead;
        assert forall k :: 0 <= k < |h.sent| ==> h.sent[k] == r.sent[k];
      }
      RunStaysBefore(cfg, r, events[1..], n, id, g);
    }
  }

  lemma AdvanceIsNext(cfg: Config, h: Host, c: Choice)
    ensures Next(cfg, h, Advance(c)) == OnAdvance(cfg, h, c)
  {
  }

  /** In every run, from the step that accepts a request on: until the await of a gate succeeds for it, or a
      Host start recovers its record, nothing behind that gate happens for the request. No record of it is
      validating before its target was resolved, none is draining, starting or committed before that was
      verified, none committed before the candidate stayed up, none rolled back before the previous release
      was verified; its task is at no stage behind the gate; and no result tells of it. */
  lemma NothingPassesAGate(cfg: Config, start: Host, before: seq<Event>, e: Event, after: seq<Event>, id: nat, g: Gate)
    requires Initial(start) && AcceptsNow(Run(cfg, start, before), e, id)
    requires !PassedIn(cfg, Next(cfg, Run(cfg, start, before), e), after, id, g)
    ensures var n := Next(cfg, Run(cfg, start, before), e);
            var r := Run(cfg, n, after);
            Before(r, id, g) && NothingTold(r.sent, |n.sent|, id, g)
  {
    hide Run, Next, Filed, Before, InStep, AcceptsNow, PassedIn;
    var h := Run(cfg, start, before);
    var n := Next(cfg, h, e);
    InitialFiled(start);
    InitialInStep(start);
    RunFiled(cfg, start, before);
    RunInStep(cfg, start, before);
    NextFiled(cfg, h, e);
    AcceptedBefore(cfg, h, e, id, g);
    RunStaysBefore(cfg, n, after, |n.sent|, id, g);
  }

  lemma InitialInStep(h: Host)
    requires Initial(h)
    ensures InStep(h)
  {
  }

  /** A Host start that commits the record of a request nothing was drained for yet restarts what was linked: the
      target is the release it was to replace. */
  lemma RecoveredTarget(h: Host, c: Choice, id: nat)
    requires Sound(h) && !h.marks.disturbed && Recovers(h, BootReady(c), id, ToDrain)
    requires h.memory.value.phase in {Validating, Phase.Draining}
    ensures h.memory.value.target == h.memory.value.previous == h.durable.link
  {
  }

  // ---------------------------------------------------------------- what a step does to the installation

  /** While a request's task is before the gate, its steps link nothing but the release a rollback returns to, and
      start no Generation of the target before that was verified; a rollback that was not verified links and
      starts nothing but the target. */
  lemma StepsStayBefore(cfg: Config, h: Host, c: Choice, g: Gate)
    requires h.up && h.act.Busy? && Before(h, h.act.job.q.id, g) && !Opens(h, Advance(c), h.act.job.q.id, g)
    ensures var r := OnAdvance(cfg, h, c);
            && (r.durable.link != h.durable.link ==>
                  r.durable.link == if g.ToRestore? then h.act.job.target else h.act.job.previous)
            && (|r.sessions| > |h.sessions| && !g.ToCommit? ==>
                  r.sessions[|h.sessions|].release == if g.ToRestore? then h.act.job.target else h.act.job.previous)
  {
    if h.act.at.Stabilizing? || h.act.at.RollbackVerifying? {
      LinkStays(cfg, h, c);
    } else if h.act.at.Launching? || h.act.at.RollbackLaunching? {
      hide Fail;
      FailKeepsLink();
    } else {
      OtherStagesStay(cfg, h, c);
    }
  }

  lemma FailKeepsLink()
    ensures forall h: Host, job, oldStopped, candidate, write {:trigger Fail(h, job, oldStopped, candidate, write)} ::
              var r := Fail(h, job, oldStopped, candidate, write);
              r.durable.link == h.durable.link && |r.sessions| == |h.sessions|
    ensures forall h: Host, job, write {:trigger RollbackFail(h, job, write)} ::
              RollbackFail(h, job, write).durable.link == h.durable.link
  {
  }

  lemma LinkStays(cfg: Config, h: Host, c: Choice)
    requires h.up && h.act.Busy? && (h.act.at.Stabilizing? || h.act.at.RollbackVerifying?)
    ensures var r := OnAdvance(cfg, h, c);
            && |r.sessions| <= |h.sessions|
            && (r.durable.link != h.durable.link ==>
                  c.ok && r.durable.link == if h.act.at.Stabilizing? then h.act.job.target else h.act.job.previous)
  {
    FailKeepsLink();
    hide Fail, RollbackFail;
  }

  predicate Stays(h: Host, r: Host) {
    r.durable.link == h.durable.link && |r.sessions| <= |h.sessions|
  }

  lemma ForwardStays(cfg: Config, h: Host, c: Choice)
    requires h.up && h.act.Busy? && (h.act.at.Resolving? || h.act.at.Verifying? || h.act.at.DrainingOld?)
    ensures Stays(h, OnAdvance(cfg, h, c))
  {
    FailKeepsLink();
    hide Fail;
  }

  lemma CandidateStays(cfg: Config, h: Host, c: Choice)
    requires h.up && h.act.Busy?
    requires h.act.at.AwaitReady? || h.act.at.Killing? || h.act.at.Linked? || h.act.at.Settling?
    ensures Stays(h, OnAdvance(cfg, h, c))
  {
    FailKeepsLink();
    hide Fail, Deliver;
  }

  lemma BackwardStays(cfg: Config, h: Host, c: Choice)
    requires h.up && h.act.Busy?
    requires h.act.at.RollbackStopping? || h.act.at.RollbackReady? || h.act.at.RollbackKilling?
      || h.act.at.AbortStopping? || h.act.at.FatalStopping?
    ensures Stays(h, OnAdvance(cfg, h, c))
  {
    FailKeepsLink();
    hide RollbackFail;
  }

  lemma SettlingStays(cfg: Config, h: Host, c: Choice)
    requires h.up && h.act.Busy? && (h.act.at.FailSettling? || h.act.at.RollbackSettling?)
    ensures Stays(h, OnAdvance(cfg, h, c))
  {
    CrashKeepsLink(cfg);
    hide RecordCrash, Deliver;
  }

  lemma OtherStagesStay(cfg: Config, h: Host, c: Choice)
    requires h.up && h.act.Busy? && !h.act.at.Stabilizing? && !h.act.at.RollbackVerifying? && !h.act.at.Launching?
      && !h.act.at.RollbackLaunching?
    ensures Stays(h, OnAdvance(cfg, h, c))
  {
    if h.act.at.Resolving? || h.act.at.Verifying? || h.act.at.DrainingOld? {
      ForwardStays(cfg, h, c);
    } else if h.act.at.AwaitReady? || h.act.at.Killing? || h.act.at.Linked? || h.act.at.Settling? {
      CandidateStays(cfg, h, c);
    } else if h.act.at.FailSettling? || h.act.at.RollbackSettling? {
      SettlingStays(cfg, h, c);
    } else {
      BackwardStays(cfg, h, c);
    }
    hide OnAdvance, Stays;
  }

  lemma CrashKeepsLink(cfg: Config)
    ensures forall h: Host, now, write, restarts {:trigger RecordCrash(cfg, h, now, write, restarts)} ::
              RecordCrash(cfg, h, now, write, restarts).durable.link == h.durable.link
  {
    hide Within;
  }

  // ---------------------------------------------------------------- what a rejection leads to

  /** The rejected request's failure is recorded and its Generation goes on serving. */
  ghost predicate Refused(h: Host, r: Host, q: Request) {
    && r.up && !r.stopped && r.durable.link == h.durable.link && r.active == h.active
    && r.durable.activation.Some? && r.durable.activation == r.memory
    && r.durable.activation.value.id == q.id && r.durable.activation.value.phase == Failed
    && r.act.Busy? && r.act.job.q == q && r.act.at == FailSettling
    && |r.sessions| == |h.sessions| && forall i :: Alive(r, i) <==> Alive(h, i)
  }

  /** Where resolving or verifying the target is rejected: the failure is recorded while the old Generation
      serves; a rollback starts, and nothing is recorded, where that has gone; the process ends where the failure
      cannot be recorded. A candidate that does not stay up is stopped for a rollback. A rollback whose release
      is rejected ends the Host. */
  lemma RejectionsEnd(cfg: Config, h: Host, c: Choice)
    requires h.up && !h.stopped && h.act.Busy? && h.ledger.clock <= c.now && !c.ok
    ensures var r, job := OnAdvance(cfg, h, c), h.act.job;
            && (h.act.at.Resolving? || h.act.at.Verifying? ==>
                  if h.active == Some(job.prior) && Alive(h, job.prior)
                  then if c.record then Refused(h, r, job.q)
                       else r.stopped && r.durable == h.durable && r.act == Busy(job, FatalStopping(job.prior))
                  else r == h.(act := Busy(job, RollbackVerifying)))
            && (h.act.at.Stabilizing? ==>
                  && r.durable == h.durable && r.memory == h.memory && |r.sessions| == |h.sessions|
                  && r.act.Busy? && r.act.job.q == job.q && r.act.at == RollbackStopping(h.act.at.c))
            && (h.act.at.RollbackVerifying? ==>
                  && r.durable.link == h.durable.link
                  && (!r.up || (r.stopped && r.act.Busy? && r.act.at.FatalStopping?))
                  && (c.record ==> && r.durable.activation.Some? && r.durable.activation.value.id == job.q.id
                                   && r.durable.activation.value.phase == Failed))
  {
  }

  /** Where the link commit fails, moved or not: the candidate is stopped for a rollback, and a rollback ends the
      Host. */
  lemma CommitFailuresEnd(cfg: Config, h: Host, c: Choice)
    requires h.up && !h.stopped && h.act.Busy? && h.ledger.clock <= c.now && c.ok && !(c.write && c.moved)
    ensures var r, job := OnAdvance(cfg, h, c), h.act.job;
            && (h.act.at.Stabilizing? && Alive(h, h.act.at.c) && job.target != job.previous ==>
                  && r.durable == h.durable.(link := if c.moved then job.target else h.durable.link)
                  && r.memory == h.memory && r.act.Busy? && r.act.at == RollbackStopping(h.act.at.c))
            && (h.act.at.RollbackVerifying? ==>
                  && r.durable.link == (if c.moved then job.previous else h.durable.link)
                  && (!r.up || (r.stopped && r.act.Busy? && r.act.at.FatalStopping?)))
  {
  }

  /** A refused request is answered: failed, with the release that goes on serving. */
  lemma RefusedIsAnswered(cfg: Config, h: Host, r: Host, q: Request, c: Choice)
    requires Refused(h, r, q) && r.ledger.clock <= c.now && Alive(r, r.act.job.prior)
    ensures var u := OnAdvance(cfg, r, c);
            && u.up && u.act == Idle && u.durable == r.durable
            && |u.sent| == |r.sent| + 1
            && var s := u.sent[|r.sent|];
               (s.verdict, s.id, s.release, s.stray) == (HasFailed, q.id, r.act.job.previous, false)
  {
  }

  // ---------------------------------------------------------------- how a request is answered

  /** One result was sent, and nothing else happened. */
  predicate Answers(h: Host, r: Host, verdict: Verdict, id: nat, release: Release) {
    && r == h.(sent := r.sent) && |r.sent| == |h.sent| + 1 && r.sent[..|h.sent|] == h.sent
    && var s := r.sent[|h.sent|];
       (s.verdict, s.id, s.release, s.stray) == (verdict, id, release, false)
  }

  /** An ACTIVATE is heard only from the live, ready, active session of a Host that is not stopped. A request seen
      before is answered from its record: refused if it says anything else than the record, not answered while it
      is unfinished, and otherwise told what became of it. While another is under way it is blocked. Else it is
      accepted, with the session's exit managed from then on, unless it expects another release. */
  lemma AnswersExactlyWhen(h: Host, q: Request, c: Choice)
    ensures var r := OnActivate(h, q, c);
            if !(h.up && !h.stopped && h.active.Some? && Alive(h, h.active.value) && h.sessions[h.active.value].ready)
            then r == h
            else
              var i, release := h.active.value, h.sessions[h.active.value].release;
              if h.memory.Some? && h.memory.value.id == q.id then
                var a := h.memory.value;
                if !(a.identity == q.identity && a.previous == q.expectedCurrent
                     && a.target == if q.target.Current? then q.expectedCurrent else q.target.release)
                then Answers(h, r, Conflicts, q.id, release)
                else match a.phase
                     case Committed => Answers(h, r, Succeeded, q.id, a.target)
                     case RolledBack => Answers(h, r, WasRolledBack, q.id, a.previous)
                     case Failed => Answers(h, r, HasFailed, q.id, a.previous)
                     case _ => r == h
              else if h.act.Busy? then Answers(h, r, Blocked, q.id, release)
              else if q.expectedCurrent == release then
                && r.act.Busy? && r.act.at == Resolving && r.act.job.q == q && r.act.job.prior == i
                && r.act.job.previous == release && r.act.job.fence == h.sessions[i].fence
                && r.sessions == h.sessions[i := h.sessions[i].(managed := true)]
                && r.durable == h.durable && r.memory == h.memory && r.sent == h.sent
              else
                && r.durable.link == h.durable.link && r.sent == h.sent
                && (c.record ==> && r.durable.activation.Some? && r.durable.activation.value.id == q.id
                                 && r.durable.activation.value.phase == Failed)
                && r.act.Busy? && r.act.at == if c.record then FailSettling else FatalStopping(i)
  {
  }

  /** A task waits for the session to die, because its start has given up. */
  predicate Doomed(h: Host, i: SessionId) {
    match h.act
    case Busy(_, Killing(k)) => k == i
    case Busy(_, RollbackKilling(k)) => k == i
    case _ => h.restart.RestartKilling? && h.restart.c == i
  }

  /** A late READY is believed exactly of a live session that is being killed and had not announced itself; it
      may then ask for activations. */
  lemma LateReadyExactlyWhen(h: Host, c: Choice)
    ensures var r := OnLateReady(h, c);
            r == h || exists i: nat :: h.up && Alive(h, i) && Doomed(h, i) && !h.sessions[i].ready
                                       && r == Put(h, i, h.sessions[i].(ready := true, fence := c.fence))
    ensures forall i: nat :: h.up && Alive(h, i) && Doomed(h, i) && !h.sessions[i].ready ==>
              OnLateReady(h, c) == Put(h, i, h.sessions[i].(ready := true, fence := c.fence))
  {
    var i := Condemned(h);
    assert i.Some? ==> Doomed(h, i.value);
  }

  /** Closing stops the active session, and the exit of a session that is managed, or not the active one, or of a
      stopped Host, is no crash. */
  lemma ClosesAndExits(cfg: Config, h: Host, i: SessionId, c: Choice)
    requires h.up
    ensures var r := OnClose(h);
            && r.up && r.stopped && r.durable == h.durable && r.active.None?
            && (h.active.Some? && Alive(h, h.active.value) ==> r.sessions[h.active.value].managed)
    ensures Alive(h, i) && h.ledger.clock <= c.now && (h.stopped || h.sessions[i].managed || h.active != Some(i)) ==>
              OnExit(cfg, h, i, c) == Put(h, i, h.sessions[i].(alive := false))
  {
  }

  // ---------------------------------------------------------------- outcomes need the living

  /** The record in memory is as it was, or newly one of an unfinished or failed activation. */
  predicate Unfinished(h: Host, r: Host) {
    r.memory == h.memory || r.memory.None? || (!r.memory.value.phase.Committed? && !r.memory.value.phase.RolledBack?)
  }

  lemma FailsRecordFailures()
    ensures forall h: Host, job, oldStopped, candidate, write {:trigger Fail(h, job, oldStopped, candidate, write)} ::
              var r := Fail(h, job, oldStopped, candidate, write);
              r.memory == h.memory || (r.memory.Some? && r.memory.value.phase.Failed?)
    ensures forall h: Host, job, write {:trigger RollbackFail(h, job, write)} ::
              var r := RollbackFail(h, job, write);
              r.memory == h.memory || r.memory.None? || r.memory.value.phase.Failed?
  {
  }

  lemma PreparingIsUnfinished(cfg: Config, h: Host, c: Choice)
    requires h.up && h.act.Busy?
    requires h.act.at.Resolving? || h.act.at.Verifying? || h.act.at.DrainingOld? || h.act.at.Launching?
      || h.act.at.AwaitReady? || h.act.at.Killing? || h.act.at.Stabilizing?
    ensures Unfinished(h, OnAdvance(cfg, h, c)) && OnAdvance(cfg, h, c).sent == h.sent
  {
    FailsRecordFailures();
    hide Fail;
  }

  lemma UndoingIsUnfinished(cfg: Config, h: Host, c: Choice)
    requires h.up && h.act.Busy?
    requires h.act.at.RollbackStopping? || h.act.at.RollbackVerifying? || h.act.at.RollbackLaunching?
      || h.act.at.RollbackKilling? || h.act.at.AbortStopping? || h.act.at.FatalStopping?
    ensures Unfinished(h, OnAdvance(cfg, h, c)) && OnAdvance(cfg, h, c).sent == h.sent
  {
    FailsRecordFailures();
    hide RollbackFail;
  }

  lemma LinkedOutcome(h: Host, c: Choice)
    requires h.act.Busy? && h.act.at.Linked?
    ensures var r := AtLinked(h, h.act.job, h.act.at.c, c);
            r.sent == h.sent && (Unfinished(h, r) || (!h.stopped && Alive(h, h.act.at.c) && Committing(h.act.at)
              && !r.memory.value.phase.RolledBack?))
  {
    FailsRecordFailures();
    hide Fail;
  }

  lemma SettlingOutcome(h: Host, c: Choice)
    requires h.act.Busy? && h.act.at.Settling?
    ensures var r := AtSettling(h, h.act.job, h.act.at.c, c);
            && Unfinished(h, r)
            && (forall k :: |h.sent| <= k < |r.sent| ==> Alive(h, h.act.at.c) && r.sent[k].release == h.act.job.target)
  {
    FailsRecordFailures();
    hide Fail;
  }

  lemma RestoredOutcome(h: Host, c: Choice)
    requires h.act.Busy? && h.act.at.RollbackReady? && h.act.at.c < |h.sessions|
    ensures var r := AtRollbackReady(h, h.act.job, h.act.at.c, c);
            && r.sent == h.sent && (r.memory.Some? && r.memory.value.phase.Committed? ==> r.memory == h.memory)
            && (Unfinished(h, r) || (Alive(h, h.act.at.c) && h.act.job.fence < c.fence))
  {
    FailsRecordFailures();
    hide RollbackFail;
  }

  lemma SettledOutcome(cfg: Config, h: Host, c: Choice)
    requires h.up && h.act.Busy? && (h.act.at.FailSettling? || h.act.at.RollbackSettling?)
    ensures var r := OnAdvance(cfg, h, c);
            Unfinished(h, r) && (forall k :: |h.sent| <= k < |r.sent| ==> !r.sent[k].verdict.Succeeded?)
  {
    var i := if h.act.at.FailSettling? then h.act.job.prior else h.act.at.c;
    AllowRewrites(cfg, h, i, c.now, c.write);
    hide Allow;
  }

  /** An activation is recorded as committed only while its candidate lives and the Host is not stopped; as rolled
      back only by a live Generation with a greater fence; and success is told directly only to a candidate
      that lived up to it. */
  lemma OutcomesNeedTheLiving(cfg: Config, h: Host, c: Choice)
    requires h.up && h.act.Busy?
    ensures var r := OnAdvance(cfg, h, c);
            && (r.memory != h.memory && r.memory.Some? && r.memory.value.phase == Committed ==>
                  h.act.at.Linked? && !h.stopped && Alive(h, h.act.at.c))
            && (r.memory != h.memory && r.memory.Some? && r.memory.value.phase == RolledBack ==>
                  h.act.at.RollbackReady? && Alive(h, h.act.at.c) && h.act.job.fence < c.fence)
            && (forall k :: |h.sent| <= k < |r.sent| && r.sent[k].verdict.Succeeded? ==>
                  h.act.at.Settling? && Alive(h, h.act.at.c) && r.sent[k].release == h.act.job.target)
  {
    hide AtLinked, AtSettling, AtRollbackReady;
    if h.act.at.FailSettling? || h.act.at.RollbackSettling? {
      SettledOutcome(cfg, h, c);
    } else if h.act.at.Linked? {
      LinkedOutcome(h, c);
    } else if h.act.at.Settling? {
      SettlingOutcome(h, c);
    } else if h.act.at.RollbackReady? {
      if h.act.at.c < |h.sessions| { RestoredOutcome(h, c); }
    } else if h.act.at.RollbackStopping? || h.act.at.RollbackVerifying? || h.act.at.RollbackLaunching?
              || h.act.at.RollbackKilling? || h.act.at.AbortStopping? || h.act.at.FatalStopping? {
      UndoingIsUnfinished(cfg, h, c);
      hide OnAdvance;
    } else {
      PreparingIsUnfinished(cfg, h, c);
      hide OnAdvance;
    }
  }

  // ---------------------------------------------------------------- a stopped Host

  predicate StaysStopped(h: Host, r: Host) {
    (r.up ==> r.stopped) && r.durable.link == h.durable.link && |r.sessions| <= |h.sessions|
  }

  lemma AdvanceStopped(cfg: Config, h: Host, c: Choice)
    requires h.up && h.stopped
    ensures StaysStopped(h, OnAdvance(cfg, h, c))
  {
    hide AtResolving, AtVerifying, AtDraining, AtAwaitReady, AtKilling, AtLinked, AtSettling, Fail;
    hide AtRollbackReady, RollbackFail, Allow, Deliver;
    FailKeepsLink();
    if h.act.Busy? {
      var r := OnAdvance(cfg, h, c);
      if h.act.at.FailSettling? || h.act.at.RollbackSettling? {
        var i := if h.act.at.FailSettling? then h.act.job.prior else h.act.at.c;
        AllowRewrites(cfg, h, i, c.now, c.write);
        SettlingStays(cfg, h, c);
      } else if Plain(h.act.at) || h.act.at.Stabilizing? || h.act.at.RollbackVerifying? {
      } else {
        assert r == h || (Files(h, r, h.act.job.q.id) && Carries(h, r));
        OtherStagesStay(cfg, h, c);
      }
    }
  }

  lemma ActivateStopped(h: Host, q: Request, c: Choice)
    requires h.up && h.stopped
    ensures StaysStopped(h, OnActivate(h, q, c))
  {
  }

  lemma CrashStopped(cfg: Config, h: Host, e: Event)
    requires h.up && h.stopped && (e.Exit? || e.Restart? || e.BootGiveUp?)
    ensures StaysStopped(h, Next(cfg, h, e))
  {
    CrashKeepsLink(cfg);
    hide OnAdvance, OnActivate, OnBoot, OnBootReady, OnReport, RecordCrash;
  }

  lemma BootStopped(h: Host, c: Choice)
    requires h.up && h.stopped
    ensures StaysStopped(h, OnBootReady(h, c))
  {
    hide Deliver;
  }

  lemma ReportStopped(h: Host)
    requires h.up && h.stopped
    ensures StaysStopped(h, OnReport(h))
  {
    hide Deliver;
  }

  lemma OtherStopped(cfg: Config, h: Host, e: Event)
    requires h.up && h.stopped && (e.Boot? || e.BootUnready? || e.LateReady? || e.Close? || e.HostCrash?)
    ensures StaysStopped(h, Next(cfg, h, e))
  {
    hide OnAdvance, OnActivate, OnBootReady, OnReport, OnExit, OnRestart, OnBootGiveUp, Within;
  }

  lemma StepStopped(cfg: Config, h: Host, e: Event)
    requires h.up && h.stopped
    ensures StaysStopped(h, Next(cfg, h, e))
  {
    match e
    case Advance(c) => AdvanceStopped(cfg, h, c);
    case Activate(q, c) => ActivateStopped(h, q, c);
    case BootReady(c) => BootStopped(h, c);
    case Report => ReportStopped(h);
    case Exit(_, _) => CrashStopped(cfg, h, e);
    case Restart(_) => CrashStopped(cfg, h, e);
    case BootGiveUp(_) => CrashStopped(cfg, h, e);
    case _ => OtherStopped(cfg, h, e);
    hide OnAdvance, OnActivate, OnRestart, OnExit, OnBootReady, OnBootGiveUp, OnBoot, OnReport, OnClose, OnLateReady,
      OnBootUnready, StaysStopped;
  }

  /** The process lives through all the events. */
  predicate UpThrough(cfg: Config, h: Host, events: seq<Event>)
    decreases |events|
  {
    h.up && (events != [] ==> UpThrough(cfg, Next(cfg, h, events[0]), events[1..]))
  }

  /** A stopped Host stays stopped, starts no Generation and links nothing, whatever happens, while the process
      lives. */
  lemma {:induction false} StoppedStays(cfg: Config, h: Host, events: seq<Event>)
    requires h.up && h.stopped && UpThrough(cfg, h, events)
    ensures StaysStopped(h, Run(cfg, h, events))
    decreases |events|
  {
    hide Next;
    if events != [] {
      var r := Next(cfg, h, events[0]);
      StepStopped(cfg, h, events[0]);
      assert UpThrough(cfg, r, events[1..]);
      StoppedStays(cfg, r, events[1..]);
    }
  }
}
