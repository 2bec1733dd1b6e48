/** Which request a result is about: what the recovery report names, and that a failure is final. */
module HostReports {
  import opened Wrappers
  import opened HostProtocol

  // ---------------------------------------------------------------- where a request can still succeed

  /** Nothing of the Host can report a success of request `id` any more, unless it is accepted again. */
  predicate Dead(h: Host, id: nat) {
    && (h.durable.activation.Some? && h.durable.activation.value.id == id ==> h.durable.activation.value.phase.Failed?)
    && (h.memory.Some? && h.memory.value.id == id ==> h.memory.value.phase.Failed?)
    && (h.act.Busy? && h.act.job.q.id == id ==> h.act.at.FailSettling? || h.act.at.FatalStopping?)
  }

  predicate Reported(h: Host) {
    match h.boot
    case Reporting(id) =>
      && h.memory.Some?
      && (h.act.Busy? && h.act.job.q.id == id ==> h.marks.overtaken)
      && (h.memory.value.id != id ==> h.marks.overtaken)
      && (!h.marks.overtaken ==> h.memory.value.phase.Committed? || h.memory.value.phase.RolledBack?)
    case _ => !h.marks.overtaken
  }

  /** The record in memory is the durable one when it says failed, and only its own task can hold it. */
  predicate Filed(h: Host) {
    && (h.up && !h.stopped && h.memory.Some? && h.memory.value.phase.Failed? ==> h.durable.activation == h.memory)
    && (h.act.Busy? && h.memory.Some? && h.memory.value.id == h.act.job.q.id && h.memory.value.phase.Failed? ==>
          h.act.at.FailSettling? || h.act.at.FatalStopping? || h.stopped)
    && (h.act.Busy? && h.act.at.FailSettling? ==>
          h.memory == h.durable.activation && h.memory.Some? && h.memory.value.id == h.act.job.q.id
            && h.memory.value.phase.Failed?)
    && (h.boot.AwaitBoot? ==>
          && h.act.Idle? && h.restart.NoRestart? && h.memory == h.durable.activation
          && |h.sessions| == 1 && !h.sessions[0].ready && h.sessions[0].managed)
    && (!h.up ==> Reset(h))
    && Reported(h)
  }

  /** A crash record rewrites the durable activation with the one in memory and changes nothing else here. */
  predicate Rewrites(h: Host, r: Host) {
    && (r.up ==> r.memory == h.memory && r.boot == h.boot && r.marks.overtaken == h.marks.overtaken)
    && (r.durable.activation == h.durable.activation || r.durable.activation == h.memory)
    && (r.up ==> r.act == h.act && (h.stopped <==> r.stopped)) && (h.up && !r.up ==> Reset(r))
  }

  lemma RecordRewrites(cfg: Config, h: Host, now: int, write: bool, restarts: bool)
    requires h.up
    ensures Rewrites(h, RecordCrash(cfg, h, now, write, restarts))
  {
    hide Within;
  }

  lemma AllowRewrites(cfg: Config, h: Host, i: SessionId, now: int, write: bool)
    requires h.up
    ensures Rewrites(h, Allow(cfg, h, i, now, write))
  {
    hide RecordCrash;
    var m := Manage(h, i, false);
    if Unexpected(m, i) { RecordRewrites(cfg, m.(active := None), now, write, true); }
  }

  // ---------------------------------------------------------------- every step files its records

  lemma FiledByTask(h: Host, r: Host)
    requires Filed(h) && h.up && h.act.Busy? && !h.act.at.FailSettling? && !h.act.at.FatalStopping?
    requires Carries(h, r) && Files(h, r, h.act.job.q.id)
    ensures Filed(r)
  {
  }

  lemma FiledByRewrite(h: Host, m: Host, r: Host)
    requires Filed(h) && h.up && Rewrites(h, m) && !h.boot.AwaitBoot?
    requires r.memory == m.memory && r.durable == m.durable && r.boot == m.boot
      && r.up == m.up
    requires r.marks.overtaken == m.marks.overtaken && r.stopped == m.stopped && (r.act == m.act || r.act.Idle?)
      && (!m.up ==> r == m)
    ensures Filed(r)
  {
  }

  lemma SettlingFiled(cfg: Config, h: Host, c: Choice)
    requires Filed(h) && h.up && h.act.Busy? && (h.act.at.FailSettling? || h.act.at.RollbackSettling?)
    ensures Filed(OnAdvance(cfg, h, c))
  {
    hide Allow;
    var i := if h.act.at.FailSettling? then h.act.job.prior else h.act.at.c;
    AllowRewrites(cfg, h, i, c.now, c.write);
    if h.ledger.clock <= c.now { FiledByRewrite(h, Allow(cfg, h, i, c.now, c.write), OnAdvance(cfg, h, c)); }
  }

  lemma AdvanceFiled(cfg: Config, h: Host, c: Choice)
    requires Filed(h)
    ensures Filed(OnAdvance(cfg, h, c))
  {
    hide AtResolving, AtVerifying, AtDraining, AtAwaitReady, AtKilling, AtStabilizing, AtLinked, AtSettling, Fail;
    hide AtFailSettling, AtRollbackVerifying, AtRollbackReady, AtRollbackSettling, RollbackFail;
    if h.up && h.act.Busy? && h.ledger.clock <= c.now {
      var job, r := h.act.job, OnAdvance(cfg, h, c);
      match h.act.at
      case FailSettling => SettlingFiled(cfg, h, c);
      case RollbackSettling(i) => SettlingFiled(cfg, h, c);
      case Launching =>
      case RollbackLaunching =>
      case FatalStopping(_) =>
      case RollbackStopping(_) =>
      case AbortStopping(_) =>
      case _ =>
        assert r == h || (Carries(h, r) && Files(h, r, job.q.id));
        hide OnAdvance, Carries, Files, Filed;
        if r != h { FiledByTask(h, r); }
    }
  }

  lemma ActivateFiled(h: Host, q: Request, c: Choice)
    requires Filed(h)
    ensures Filed(OnActivate(h, q, c))
  {
    hide Fail, Deliver;
    if MayActivate(h) && h.act.Idle? && !(h.memory.Some? && h.memory.value.id == q.id) {
      AcceptFiled(h, q, c);
    }
  }

  lemma AcceptFiled(h: Host, q: Request, c: Choice)
    requires Filed(h) && Accepts(h, q)
    ensures Filed(OnActivate(h, q, c))
  {
    hide Fail, Carries;
    var i := h.active.value;
    var previous := h.sessions[i].release;
    var job := Job(q, i, previous, previous, h.sessions[i].fence);
    var m := Manage(Admitted(h, q), i, true).(act := Busy(job, Resolving));
    assert Filed(m);
    if q.expectedCurrent != previous {
      var r := Fail(m, job, false, None, c.record);
      assert Carries(m, r) && Files(m, r, q.id);
      FiledByTask(m, r);
    }
  }

  lemma BootReadyFiled(h: Host, c: Choice)
    requires Filed(h)
    ensures Filed(OnBootReady(h, c))
  {
    hide Deliver;
  }

  lemma BootGiveUpFiled(cfg: Config, h: Host, c: Choice)
    requires Filed(h)
    ensures Filed(OnBootGiveUp(cfg, h, c))
  {
    hide RecordCrash, Reported;
    var r := OnBootGiveUp(cfg, h, c);
    if h.up { RecordRewrites(cfg, Deactivate(h, 0), c.now, c.write, false); }
    ReportedStays(h, r);
  }

  lemma ReportedStays(h: Host, r: Host)
    requires Reported(h)
    requires Reset(r)
      || (r.boot == h.boot && r.memory == h.memory && r.act == h.act && r.marks.overtaken == h.marks.overtaken)
    ensures Reported(r)
  {
  }

  lemma RestartFiled(cfg: Config, h: Host, c: Choice)
    requires Filed(h)
    ensures Filed(OnRestart(cfg, h, c))
  {
    hide RecordCrash, Reported;
    if h.up && h.ledger.clock <= c.now && h.restart.RestartKilling? && !h.stopped && !Alive(h, h.restart.c) {
      var d := Deactivate(h, h.restart.c);
      RecordRewrites(cfg, d, c.now, c.write, true);
      assert Rewrites(h, RecordCrash(cfg, d, c.now, c.write, true));
      FiledByRewrite(h, RecordCrash(cfg, d, c.now, c.write, true), OnRestart(cfg, h, c));
    } else {
      var r := OnRestart(cfg, h, c);
      ReportedStays(h, r);
    }
  }

  lemma ExitFiled(cfg: Config, h: Host, i: SessionId, c: Choice)
    requires Filed(h)
    ensures Filed(OnExit(cfg, h, i, c))
  {
    hide RecordCrash;
    if h.up && Alive(h, i) {
      RecordRewrites(cfg, Put(h, i, h.sessions[i].(alive := false)).(active := None), c.now, c.write, true);
    }
  }

  lemma BootStartFiled(cfg: Config, h: Host, e: Event)
    requires Filed(h) && e.Boot?
    ensures Filed(Next(cfg, h, e))
  {
    hide Within;
  }

  lemma ReportFiled(h: Host)
    requires Filed(h)
    ensures Filed(OnReport(h))
  {
    hide Deliver;
  }

  lemma BootUnreadyFiled(h: Host)
    requires Filed(h)
    ensures Filed(OnBootUnready(h))
  {
  }

  lemma PlainFiled(cfg: Config, h: Host, e: Event)
    requires Filed(h) && (e.LateReady? || e.Close? || e.HostCrash?)
    ensures Filed(Next(cfg, h, e))
  {
    hide OnAdvance, OnActivate, OnRestart, OnExit, OnBootReady, OnBootGiveUp, OnBoot, OnReport, OnBootUnready;
    hide Reported;
    ReportedStays(h, Next(cfg, h, e));
  }

  lemma NextFiled(cfg: Config, h: Host, e: Event)
    requires Filed(h)
    ensures Filed(Next(cfg, h, e))
  {
    match e
    case BootReady(c) => BootReadyFiled(h, c);
    case BootGiveUp(c) => BootGiveUpFiled(cfg, h, c);
    case Exit(i, c) => ExitFiled(cfg, h, i, c);
    case Activate(q, c) => ActivateFiled(h, q, c);
    case Advance(c) => AdvanceFiled(cfg, h, c);
    case Restart(c) => RestartFiled(cfg, h, c);
    case Boot(_, _, _, _) => BootStartFiled(cfg, h, e);
    case Report => ReportFiled(h);
    case BootUnready => BootUnreadyFiled(h);
    case _ => PlainFiled(cfg, h, e);
    hide OnAdvance, OnActivate, OnRestart, OnExit, OnBootReady, OnBootGiveUp, OnBoot, OnReport, OnClose, OnLateReady,
      OnBootUnready;
    hide Filed;
  }

  // ---------------------------------------------------------------- a failed request stays failed

  /** A failure that no stray recovery report caused. */
  predicate Failure(s: Sent) {
    s.verdict.HasFailed? && !s.stray
  }

  /** The step accepts request `id`. */
  predicate AcceptsNow(h: Host, e: Event, id: nat) {
    e.Activate? && Accepts(h, e.q) && e.q.id == id
  }

  /** The result the step sent, if any: it never reports success of the dead, and its failures are final. */
  predicate Final(h: Host, r: Host, id: nat) {
    r.sent == h.sent
    || (|r.sent| == |h.sent| + 1 && r.sent[..|h.sent|] == h.sent
        && var s := r.sent[|h.sent|];
           && (s.id == id && Dead(h, id) ==> !s.verdict.Succeeded?)
           && (Failure(s) ==> Dead(r, s.id)))
  }

  lemma DeadByTask(h: Host, r: Host, id: nat)
    requires Dead(h, id) && h.act.Busy? && h.act.job.q.id != id && Files(h, r, h.act.job.q.id) && (r.up || Reset(r))
    ensures Dead(r, id)
  {
  }

  lemma DeadByRewrite(h: Host, m: Host, r: Host, id: nat)
    requires Dead(h, id) && Rewrites(h, m) && h.up
    requires r.memory == m.memory && r.durable == m.durable && r.up == m.up && (r.act == m.act || r.act.Idle?)
    ensures Dead(r, id)
  {
  }

  lemma SettlingDead(cfg: Config, h: Host, c: Choice, id: nat)
    requires Filed(h) && h.up && h.act.Busy? && (h.act.at.FailSettling? || h.act.at.RollbackSettling?)
    ensures var r := OnAdvance(cfg, h, c); (Dead(h, id) ==> Dead(r, id)) && Final(h, r, id)
  {
    hide Allow, Reported;
    var i := if h.act.at.FailSettling? then h.act.job.prior else h.act.at.c;
    AllowRewrites(cfg, h, i, c.now, c.write);
    var m, r := Allow(cfg, h, i, c.now, c.write), OnAdvance(cfg, h, c);
    if h.ledger.clock <= c.now {
      if Dead(h, id) { DeadByRewrite(h, m, r, id); }
      if h.act.at.FailSettling? {
        assert Dead(h, h.act.job.q.id);
        DeadByRewrite(h, m, r, h.act.job.q.id);
      }
      hide Dead;
    }
  }

  /** Stages without a write of their own. */
  predicate Plain(at: Stage) {
    at.Launching? || at.RollbackLaunching? || at.RollbackStopping? || at.AbortStopping? || at.FatalStopping?
  }

  lemma PlainDead(cfg: Config, h: Host, c: Choice, id: nat)
    requires Filed(h) && h.up && h.act.Busy? && Plain(h.act.at)
    ensures var r := OnAdvance(cfg, h, c); (Dead(h, id) ==> Dead(r, id)) && r.sent == h.sent
  {
    hide Fail, Reported;
  }

  lemma WritingDead(cfg: Config, h: Host, c: Choice, id: nat)
    requires Filed(h) && h.up && h.act.Busy? && !Plain(h.act.at) && !h.act.at.FailSettling?
      && !h.act.at.RollbackSettling?
    ensures var r := OnAdvance(cfg, h, c); (Dead(h, id) ==> Dead(r, id)) && Final(h, r, id)
  {
    hide AtResolving, AtVerifying, AtDraining, AtAwaitReady, AtKilling, AtStabilizing, AtLinked, Fail, Reported, Filed;
    hide AtRollbackVerifying, AtRollbackReady, RollbackFail;
    var r := OnAdvance(cfg, h, c);
    assert r == h || (Files(h, r, h.act.job.q.id) && Carries(h, r));
    assert r.sent == h.sent || h.act.at.Settling?;
    hide AtSettling, OnAdvance;
    if r != h && Dead(h, id) {
      assert h.act.job.q.id != id;
      DeadByTask(h, r, id);
    }
    if h.act.at.Settling? { SettledSends(cfg, h, c, id); }
  }

  lemma SettledSends(cfg: Config, h: Host, c: Choice, id: nat)
    requires h.up && h.act.Busy? && h.act.at.Settling?
    ensures Final(h, OnAdvance(cfg, h, c), id)
  {
    hide Fail;
  }

  lemma AdvanceDead(cfg: Config, h: Host, c: Choice, id: nat)
    requires Filed(h)
    ensures var r := OnAdvance(cfg, h, c); (Dead(h, id) ==> Dead(r, id)) && Final(h, r, id)
  {
    if h.up && h.act.Busy? {
      if h.act.at.FailSettling? || h.act.at.RollbackSettling? {
        SettlingDead(cfg, h, c, id);
      } else if Plain(h.act.at) {
        PlainDead(cfg, h, c, id);
      } else {
        WritingDead(cfg, h, c, id);
      }
      hide OnAdvance, Dead;
    }
  }

  lemma DeliverFinal(h: Host, i: SessionId, verdict: Verdict, rid: nat, release: Release, stray: bool, id: nat)
    requires verdict.Succeeded? && rid == id ==> !Dead(h, id)
    requires verdict.HasFailed? && !stray ==> Dead(h, rid)
    ensures var r := Deliver(h, i, verdict, rid, release, stray); Final(h, r, id) && (Dead(h, id) ==> Dead(r, id))
  {
    var r := Deliver(h, i, verdict, rid, release, stray);
    if r.sent != h.sent { assert r.sent[..|h.sent|] == h.sent; }
  }

  /** Replaying the record in memory. */
  lemma ReplayFinal(h: Host, i: SessionId, a: Activation, stray: bool, id: nat)
    requires Filed(h) && !h.stopped && h.up && h.memory == Some(a) && (Terminal(a.phase) || stray)
    requires h.act.Busy? && h.act.job.q.id == a.id && a.phase.Failed? ==>
               h.act.at.FailSettling? || h.act.at.FatalStopping?
    ensures var r := Deliver(h, i, VerdictOf(a), a.id, NamedRelease(a), stray);
            Final(h, r, id) && (Dead(h, id) ==> Dead(r, id))
  {
    hide Deliver, Reported;
    DeliverFinal(h, i, VerdictOf(a), a.id, NamedRelease(a), stray, id);
  }

  lemma AcceptDead(h: Host, q: Request, c: Choice, id: nat)
    requires Filed(h) && Accepts(h, q) && q.id != id && Dead(h, id)
    ensures Dead(OnActivate(h, q, c), id)
  {
    hide Fail, Reported;
    var i := h.active.value;
    var previous := h.sessions[i].release;
    var job := Job(q, i, previous, previous, h.sessions[i].fence);
    var m := Manage(Admitted(h, q), i, true).(act := Busy(job, Resolving));
    assert Dead(m, id);
    if q.expectedCurrent != previous { DeadByTask(m, Fail(m, job, false, None, c.record), id); }
  }

  lemma ActivateDead(h: Host, q: Request, c: Choice, id: nat)
    requires Filed(h)
    ensures var r := OnActivate(h, q, c);
            (Dead(h, id) && !(Accepts(h, q) && q.id == id) ==> Dead(r, id)) && Final(h, r, id)
  {
    hide Fail, Deliver, Reported;
    if MayActivate(h) {
      var i := h.active.value;
      if h.memory.Some? && h.memory.value.id == q.id {
        if Terminal(h.memory.value.phase) { ReplayFinal(h, i, h.memory.value, false, id); }
        DeliverFinal(h, i, Conflicts, q.id, h.sessions[i].release, false, id);
      } else if h.act.Busy? {
        DeliverFinal(h, i, Blocked, q.id, h.sessions[i].release, false, id);
      } else if Dead(h, id) && q.id != id {
        AcceptDead(h, q, c, id);
      }
      hide Dead;
    }
  }

  lemma BootDead(cfg: Config, h: Host, c: Choice, id: nat)
    requires Filed(h)
    ensures var r := OnBootReady(h, c); (Dead(h, id) ==> Dead(r, id)) && Final(h, r, id)
    ensures var r := OnBootGiveUp(cfg, h, c); (Dead(h, id) ==> Dead(r, id)) && Final(h, r, id)
  {
    hide RecordCrash, Deliver, Reported;
    if h.up {
      var d := Deactivate(h, 0);
      RecordRewrites(cfg, d, c.now, c.write, false);
      if h.boot.AwaitBoot? && Alive(h, 0) && h.memory.Some? && Terminal(h.memory.value.phase) {
        var r := Put(h, 0, h.sessions[0].(ready := true, fence := c.fence, managed := false))
                 .(fences := h.fences + [c.fence], boot := Booted);
        var a := h.memory.value;
        DeliverFinal(r, 0, VerdictOf(a), a.id, NamedRelease(a), false, id);
      }
    }
  }

  lemma RecordDead(cfg: Config, h: Host, now: int, write: bool, restarts: bool, id: nat)
    requires h.up
    ensures var r := RecordCrash(cfg, h, now, write, restarts); (Dead(h, id) ==> Dead(r, id)) && r.sent == h.sent
  {
    hide RecordCrash;
    RecordRewrites(cfg, h, now, write, restarts);
    var r := RecordCrash(cfg, h, now, write, restarts);
    if Dead(h, id) { DeadByRewrite(h, r, r, id); }
  }

  lemma RestartDead(cfg: Config, h: Host, c: Choice, id: nat)
    ensures var r := OnRestart(cfg, h, c); (Dead(h, id) ==> Dead(r, id)) && r.sent == h.sent
  {
    hide RecordCrash;
    if h.up && h.restart.RestartKilling? { RecordDead(cfg, Deactivate(h, h.restart.c), c.now, c.write, true, id); }
  }

  lemma ExitDead(cfg: Config, h: Host, i: SessionId, c: Choice, id: nat)
    ensures var r := OnExit(cfg, h, i, c); (Dead(h, id) ==> Dead(r, id)) && r.sent == h.sent
  {
    hide RecordCrash;
    if h.up && Alive(h, i) {
      RecordDead(cfg, Put(h, i, h.sessions[i].(alive := false)).(active := None), c.now, c.write, true, id);
    }
  }

  lemma ReportDead(h: Host, id: nat)
    requires Filed(h)
    ensures var r := OnReport(h); (Dead(h, id) ==> Dead(r, id)) && Final(h, r, id)
  {
    hide Deliver;
    if h.up && h.boot.Reporting? {
      var r := h.(boot := Booted, marks := h.marks.(overtaken := false));
      var a := h.memory.value;
      DeliverFinal(r, 0, VerdictOf(a), a.id, NamedRelease(a), h.marks.overtaken, id);
    }
  }

  lemma BootStartDead(cfg: Config, h: Host, now: int, write: bool, verified: bool, closed: bool, id: nat)
    ensures var r := OnBoot(cfg, h, now, write, verified, closed); (Dead(h, id) ==> Dead(r, id)) && r.sent == h.sent
  {
    hide Within;
  }

  /** What a step without a record of its own leaves alone, unless the process ends. */
  predicate Quiet(h: Host, r: Host) {
    && r.sent == h.sent && r.durable.activation == h.durable.activation
    && ((r.memory == h.memory && r.act == h.act) || (r.memory.None? && r.act.Idle?))
  }

  lemma OtherQuiet(cfg: Config, h: Host, e: Event)
    requires e.BootUnready? || e.LateReady? || e.Close? || e.HostCrash?
    ensures Quiet(h, Next(cfg, h, e))
  {
    hide OnAdvance, OnActivate, OnRestart, OnExit, OnBootReady, OnBootGiveUp, OnBoot, OnReport;
  }

  lemma QuietDead(h: Host, r: Host, id: nat)
    requires Quiet(h, r)
    ensures (Dead(h, id) ==> Dead(r, id)) && r.sent == h.sent
  {
  }

  /** A dead request stays dead and is never reported successful, unless it is accepted again. */
  lemma NextDead(cfg: Config, h: Host, e: Event, id: nat)
    requires Filed(h)
    ensures var r := Next(cfg, h, e); (Dead(h, id) && !AcceptsNow(h, e, id) ==> Dead(r, id)) && Final(h, r, id)
  {
    match e
    case BootReady(c) => BootDead(cfg, h, c, id);
    case BootGiveUp(c) => BootDead(cfg, h, c, id);
    case Exit(i, c) => ExitDead(cfg, h, i, c, id);
    case Activate(q, c) => ActivateDead(h, q, c, id);
    case Advance(c) => AdvanceDead(cfg, h, c, id);
    case Restart(c) => RestartDead(cfg, h, c, id);
    case Report => ReportDead(h, id);
    case Boot(now, write, verified, closed) => BootStartDead(cfg, h, now, write, verified, closed, id);
    case _ => OtherQuiet(cfg, h, e); QuietDead(h, Next(cfg, h, e), id);
    hide OnAdvance, OnActivate, OnRestart, OnExit, OnBootReady, OnBootGiveUp, OnBoot, OnReport, OnClose, OnLateReady,
      OnBootUnready;
    hide Filed, Dead;
  }

  // ---------------------------------------------------------------- all runs

  /** Some step of the run accepts request `id`. */
  predicate AcceptedIn(cfg: Config, h: Host, events: seq<Event>, id: nat)
    decreases |events|
  {
    events != [] && (AcceptsNow(h, events[0], id) || AcceptedIn(cfg, Next(cfg, h, events[0]), events[1..], id))
  }

  lemma {:induction false} RunFiled(cfg: Config, h: Host, events: seq<Event>)
    requires Filed(h)
    ensures Filed(Run(cfg, h, events))
    decreases |events|
  {
    hide Next, Filed;
    if events != [] {
      NextFiled(cfg, h, events[0]);
      RunFiled(cfg, Next(cfg, h, events[0]), events[1..]);
    }
  }

  /** Nothing sent since `n` results were out reports a success of the request. */
  predicate NoSuccess(sent: seq<Sent>, n: nat, id: nat) {
    forall k :: n <= k < |sent| && sent[k].id == id ==> !sent[k].verdict.Succeeded?
  }

  lemma {:induction false} DeadUntilAccepted(cfg: Config, h: Host, events: seq<Event>, n: nat, id: nat)
    requires Filed(h) && Dead(h, id) && NoSuccess(h.sent, n, id) && !AcceptedIn(cfg, h, events, id)
    ensures NoSuccess(Run(cfg, h, events).sent, n, id)
    decreases |events|
  {
    hide Next, Filed, Dead, AcceptsNow;
    if events != [] {
      var r := Next(cfg, h, events[0]);
      NextFiled(cfg, h, events[0]);
      NextDead(cfg, h, events[0], id);
      assert NoSuccess(r.sent, n, id) by {
        assert forall k :: 0 <= k < |h.sent| ==> h.sent[k] == r.sent[k];
      }
      DeadUntilAccepted(cfg, r, events[1..], n, id);
    }
  }

  /** In every run, a request that was reported failed is reported successful later only if it was
      accepted again in between, unless the failure came from a stray recovery report. `e` is the step
      that reports the failure, `after` is what follows it. */
  lemma FailuresAreFinal(cfg: Config, start: Host, before: seq<Event>, e: Event, after: seq<Event>, k: nat)
    requires Initial(start)
    requires var h := Run(cfg, start, before);
             var n := Next(cfg, h, e);
             && |n.sent| == |h.sent| + 1 && Failure(n.sent[|h.sent|])
             && |n.sent| <= k < |Run(cfg, n, after).sent|
    ensures var h := Run(cfg, start, before);
            var n := Next(cfg, h, e);
            var r := Run(cfg, n, after);
            r.sent[k].verdict.Succeeded? && r.sent[k].id == n.sent[|h.sent|].id ==>
              AcceptedIn(cfg, n, after, r.sent[k].id)
  {
    hide Run, Next, Filed, Dead, AcceptedIn;
    var h := Run(cfg, start, before);
    var n := Next(cfg, h, e);
    var id := n.sent[|h.sent|].id;
    assert Filed(start) by { InitialFiled(start); }
    RunFiled(cfg, start, before);
    NextFiled(cfg, h, e);
    NextDead(cfg, h, e, id);
    if !AcceptedIn(cfg, n, after, id) { DeadUntilAccepted(cfg, n, after, |n.sent|, id); }
  }

  lemma InitialFiled(h: Host)
    requires Initial(h)
    ensures Filed(h)
  {
  }

  // ---------------------------------------------------------------- what the recovery report names

  /** While the report is due, the mark is set exactly when the record in memory is replaced. */
  predicate Watches(h: Host, n: Host) {
    n.up && n.boot == h.boot ==> (n.marks.overtaken <==> h.marks.overtaken || n.memory != h.memory)
  }

  /** Only other requests are active, and what replaced the record is about another request. */
  predicate Others(h: Host) {
    && h.boot.Reporting? && h.memory.Some?
    && (h.act.Busy? ==> h.act.job.q.id != h.boot.recovered)
    && (h.marks.overtaken ==> h.memory.value.id != h.boot.recovered)
  }

  predicate StayOthers(h: Host, n: Host) {
    Others(h) && n.up && n.boot == h.boot ==> Others(n)
  }

  lemma FilesWatch(h: Host, n: Host)
    requires Reported(h) && h.boot.Reporting? && h.act.Busy? && Files(h, n, h.act.job.q.id)
    ensures Watches(h, n) && StayOthers(h, n)
  {
  }

  lemma AdvanceWatches(cfg: Config, h: Host, c: Choice)
    requires Filed(h) && h.up && h.boot.Reporting?
    ensures Watches(h, OnAdvance(cfg, h, c)) && StayOthers(h, OnAdvance(cfg, h, c))
  {
    hide AtResolving, AtVerifying, AtDraining, AtAwaitReady, AtKilling, AtStabilizing, AtLinked, AtSettling, Fail;
    hide AtRollbackVerifying, AtRollbackReady, RollbackFail, Allow;
    var n := OnAdvance(cfg, h, c);
    if h.act.Busy? && h.ledger.clock <= c.now && n != h {
      if h.act.at.FailSettling? { AllowRewrites(cfg, h, h.act.job.prior, c.now, c.write); }
      if h.act.at.RollbackSettling? { AllowRewrites(cfg, h, h.act.at.c, c.now, c.write); }
      if !Plain(h.act.at) && !h.act.at.FailSettling? && !h.act.at.RollbackSettling? {
        assert Files(h, n, h.act.job.q.id);
        FilesWatch(h, n);
      }
      hide Files, Filed, Reported;
    }
  }

  lemma ActivateWatches(h: Host, q: Request, c: Choice)
    requires Filed(h) && h.up && h.boot.Reporting?
    ensures Watches(h, OnActivate(h, q, c))
    ensures !(Accepts(h, q) && q.id == h.boot.recovered) ==> StayOthers(h, OnActivate(h, q, c))
  {
    hide Fail, Deliver;
    if Accepts(h, q) {
      var i := h.active.value;
      var previous := h.sessions[i].release;
      var job := Job(q, i, previous, previous, h.sessions[i].fence);
      var m := Manage(Admitted(h, q), i, true).(act := Busy(job, Resolving));
      assert Reported(m);
      FilesWatch(m, Fail(m, job, false, None, c.record));
    }
  }

  lemma CrashWatches(cfg: Config, h: Host, e: Event)
    requires h.up && (e.Exit? || e.Restart? || e.BootGiveUp?)
    ensures Watches(h, Next(cfg, h, e)) && StayOthers(h, Next(cfg, h, e))
  {
    hide RecordCrash;
    if e.Exit? && Alive(h, e.session) {
      var d := Put(h, e.session, h.sessions[e.session].(alive := false)).(active := None);
      RecordRewrites(cfg, d, e.choice.now, e.choice.write, true);
    }
    if e.Restart? && h.restart.RestartKilling? {
      RecordRewrites(cfg, Deactivate(h, h.restart.c), e.choice.now, e.choice.write, true);
    }
  }

  lemma ReportStep(cfg: Config, h: Host, e: Event)
    requires Filed(h) && h.up && h.boot.Reporting?
    ensures Watches(h, Next(cfg, h, e))
    ensures !AcceptsNow(h, e, h.boot.recovered) ==> StayOthers(h, Next(cfg, h, e))
  {
    match e
    case Exit(_, _) => CrashWatches(cfg, h, e);
    case BootGiveUp(_) => CrashWatches(cfg, h, e);
    case Restart(_) => CrashWatches(cfg, h, e);
    case Activate(q, c) => ActivateWatches(h, q, c);
    case Advance(c) => AdvanceWatches(cfg, h, c);
    case _ =>
    hide OnAdvance, OnActivate, OnRestart, OnExit, OnBootGiveUp, Filed, Deliver;
  }

  /** The report stays due over all the events. */
  predicate ReportDue(cfg: Config, h: Host, events: seq<Event>)
    decreases |events|
  {
    && h.up && h.boot.Reporting?
    && (events != [] ==> Next(cfg, h, events[0]).boot == h.boot && ReportDue(cfg, Next(cfg, h, events[0]), events[1..]))
  }

  /** No step replaces the record in memory. */
  predicate RecordKept(cfg: Config, h: Host, events: seq<Event>)
    decreases |events|
  {
    events != [] ==> Next(cfg, h, events[0]).memory == h.memory && RecordKept(cfg, Next(cfg, h, events[0]), events[1..])
  }

  lemma {:induction false} OvertakenExactlyWhen(cfg: Config, h: Host, events: seq<Event>)
    requires Filed(h) && ReportDue(cfg, h, events)
    ensures var r := Run(cfg, h, events);
            && Filed(r) && r.up && r.boot == h.boot
            && (r.marks.overtaken <==> h.marks.overtaken || !RecordKept(cfg, h, events))
            && (Others(h) && !AcceptedIn(cfg, h, events, h.boot.recovered) ==> Others(r))
    decreases |events|
  {
    hide Next, Filed, Others, AcceptsNow;
    if events != [] {
      var n := Next(cfg, h, events[0]);
      NextFiled(cfg, h, events[0]);
      ReportStep(cfg, h, events[0]);
      OvertakenExactlyWhen(cfg, n, events[1..]);
    }
  }

  lemma ReportNames(cfg: Config, h: Host, events: seq<Event>)
    requires Filed(h) && Others(h) && ReportDue(cfg, h, events) && !h.marks.overtaken
    requires Alive(Run(cfg, h, events), 0)
    ensures NamesRecovered(cfg, h, events)
  {
    OvertakenExactlyWhen(cfg, h, events);
    hide Run, RecordKept, ReportDue, AcceptedIn;
  }

  /** The report sent after `events` marks itself stray exactly when the record in memory was replaced. A
      report that is not stray names the recovered request, and not as failed; a stray one names another
      request, unless the recovered one was itself accepted again. */
  ghost predicate NamesRecovered(cfg: Config, h: Host, events: seq<Event>)
    requires h.boot.Reporting?
  {
    var r := Run(cfg, h, events);
    var n := Next(cfg, r, Report);
    && |n.sent| == |r.sent| + 1
    && var s := n.sent[|r.sent|];
       && (s.stray <==> !RecordKept(cfg, h, events))
       && (!s.stray ==> s.id == h.boot.recovered && !s.verdict.HasFailed?)
       && (s.stray && s.id == h.boot.recovered ==> AcceptedIn(cfg, h, events, s.id))
  }

  /** In every run, the recovery report of a Host start names the request it recovered if no other record
      replaced that in memory while the report was due, and, unless the same request was accepted again,
      only if. `before` leads to the READY of the start, which leaves the report due for `events`. */
  lemma RecoveryNamesTheRecovered(cfg: Config, start: Host, before: seq<Event>, c: Choice, events: seq<Event>)
    requires Initial(start)
    requires var g := Run(cfg, start, before);
             var h := Next(cfg, g, BootReady(c));
             && g.boot.AwaitBoot? && h.boot.Reporting? && ReportDue(cfg, h, events) && Alive(Run(cfg, h, events), 0)
    ensures var g := Run(cfg, start, before);
            && g.memory.Some? && Next(cfg, g, BootReady(c)).boot.recovered == g.memory.value.id
            && NamesRecovered(cfg, Next(cfg, g, BootReady(c)), events)
  {
    hide Run, RecordKept, ReportDue, NamesRecovered, Filed;
    var g := Run(cfg, start, before);
    InitialFiled(start);
    RunFiled(cfg, start, before);
    NextFiled(cfg, g, BootReady(c));
    ReportStarts(cfg, g, c);
    hide Next;
    ReportNames(cfg, Next(cfg, g, BootReady(c)), events);
  }

  lemma ReportStarts(cfg: Config, h: Host, c: Choice)
    requires Filed(h) && h.boot.AwaitBoot? && Next(cfg, h, BootReady(c)).boot.Reporting?
    ensures var n := Next(cfg, h, BootReady(c));
            Others(n) && !n.marks.overtaken && h.memory.Some? && n.boot.recovered == h.memory.value.id
  {
  }
}
