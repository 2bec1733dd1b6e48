/** That good answers lead somewhere: an accepted activation commits, a crashed Generation is restarted, and a Host
    starts, each exactly where the environment lets it. */
module HostProgress {
  import opened Wrappers
  import opened HostProtocol
  import opened HostSafety
  import opened HostUsurpation

  // ---------------------------------------------------------------- an activation commits

  /** Nothing is under way, and the newest Generation runs what is linked. */
  predicate Calm(h: Host) {
    Sound(h) && Serving(h) && h.boot.Booted?
  }

  /** The accepted request drains the serving Generation. */
  predicate Drains(h: Host, r: Host, job: Job) {
    && r.up && !r.stopped && r.restart.NoRestart? && r.boot.Booted? && r.ledger == h.ledger && r.sent == h.sent
    && r.sessions != [] && |r.sessions| == |h.sessions| && r.durable.link == h.durable.link
    && r.act == Busy(job, DrainingOld)
    && Alive(r, Last(r)) && r.sessions[Last(r)].managed && r.active == Some(Last(r)) && job.prior == Last(r)
  }

  /** The candidate serves; its release is linked, recorded and reported. */
  predicate Commits(h: Host, r: Host, job: Job) {
    && r.up && !r.stopped && r.restart.NoRestart? && r.act.Idle? && r.active == Some(|h.sessions|)
    && |r.sessions| == |h.sessions| + 1
    && r.sessions[|h.sessions|] == Session(job.target, true, true, false, job.fence + 1)
    && r.durable.link == job.target && r.durable.activation == Some(Record(job, Committed))
    && |r.sent| == |h.sent| + 1
    && var s := r.sent[|h.sent|];
       (s.verdict, s.id, s.release, s.stray) == (Succeeded, job.q.id, job.target, false)
  }

  function Accepting(h: Host, q: Request): seq<Event> {
    [Activate(q, Prompt(h)), Advance(Prompt(h)), Advance(Prompt(h))]
  }

  function Draining(h: Host): seq<Event>
    requires h.sessions != []
  {
    [Exit(Last(h), Prompt(h)), Advance(Prompt(h)), Advance(Prompt(h))]
  }

  function Announce(h: Host): seq<Event>
    requires h.act.Busy?
  {
    [Advance(Announcing(h, h.act.job.fence + 1)), Advance(Prompt(h)), Advance(Prompt(h))]
  }

  lemma AcceptingDrains(cfg: Config, h: Host, q: Request)
    requires Calm(h) && Accepts(h, q) && q.expectedCurrent == h.durable.link
    ensures Drains(h, Run(cfg, h, Accepting(h, q)), JobOf(h, q))
  {
    var c := Prompt(h);
    RunThree(cfg, h, Activate(q, c), Advance(c), Advance(c));
    var a := Next(cfg, h, Activate(q, c));
    assert a.act.Busy? && a.act.at.Resolving? && a.act.job.prior == Last(h) && a.ledger == h.ledger
           && a.up && !a.stopped && a.sent == h.sent && a.durable.link == h.durable.link;
    var b := Next(cfg, a, Advance(c));
    assert b.up && !b.stopped && b.act == Busy(JobOf(h, q), Verifying) && b.ledger == h.ledger;
  }

  /** The drained Generation exits, and the candidate is started. */
  predicate Launched(h: Host, r: Host, job: Job) {
    && r.up && !r.stopped && r.restart.NoRestart? && r.boot.Booted? && r.ledger == h.ledger && r.sent == h.sent
    && |r.sessions| == |h.sessions| + 1 && r.durable.link == h.durable.link
    && r.act == Busy(job, AwaitReady(|h.sessions|)) && r.active == Some(|h.sessions|)
    && r.sessions[|h.sessions|] == Session(job.target, true, false, true, 0)
  }

  lemma DrainingLaunches(cfg: Config, h: Host, r: Host, job: Job)
    requires h.sessions != [] && Drains(h, r, job)
    ensures Launched(h, Run(cfg, r, Draining(r)), job)
  {
    var c, n := Prompt(r), Last(r);
    RunThree(cfg, r, Exit(n, c), Advance(c), Advance(c));
    var a := Next(cfg, r, Exit(n, c));
    assert a == Put(r, n, r.sessions[n].(alive := false));
    var b := Next(cfg, a, Advance(c));
    assert b == a.(active := None, memory := b.memory, durable := b.durable, marks := b.marks,
                   act := Busy(job, Launching)) && b.durable.link == h.durable.link;
  }

  /** The candidate is linked and its record is durable. */
  predicate Linking(r: Host, u: Host, job: Job, n: SessionId)
    requires n < |r.sessions|
  {
    && u.up && !u.stopped && u.restart.NoRestart? && u.sent == r.sent && u.ledger == r.ledger && u.active == Some(n)
    && u.sessions == r.sessions[n := Session(job.target, true, true, true, job.fence + 1)]
    && u.act == Busy(job, Settling(n)) && u.durable.link == job.target
    && u.durable.activation == Some(Record(job, Committed))
  }

  function Announced(r: Host, job: Job, n: SessionId): Host
    requires n < |r.sessions|
  {
    r.(sessions := r.sessions[n := Session(job.target, true, true, true, job.fence + 1)],
       fences := r.fences + [job.fence + 1], act := Busy(job, Stabilizing(n)))
  }

  function Linked(r: Host, job: Job, n: SessionId): Host {
    r.(durable := r.durable.(link := job.target), act := Busy(job, Stage.Linked(n)))
  }

  lemma AnnounceStep(cfg: Config, h: Host, r: Host, job: Job)
    requires Launched(h, r, job)
    ensures Next(cfg, r, Advance(Announcing(r, job.fence + 1))) == Announced(r, job, |h.sessions|)
  {
  }

  lemma LinkStep(cfg: Config, h: Host, r: Host, job: Job)
    requires Launched(h, r, job) && h.durable.link == job.previous
    ensures Next(cfg, Announced(r, job, |h.sessions|), Advance(Prompt(r)))
         == Linked(Announced(r, job, |h.sessions|), job, |h.sessions|)
  {
  }

  lemma CommitStep(cfg: Config, h: Host, r: Host, job: Job)
    requires Launched(h, r, job)
    ensures var n := |h.sessions|;
            Linking(r, Next(cfg, Linked(Announced(r, job, n), job, n), Advance(Prompt(r))), job, n)
  {
  }

  lemma AnnouncingLinks(cfg: Config, h: Host, r: Host, job: Job)
    requires h.sessions != [] && Launched(h, r, job) && h.durable.link == job.previous
    ensures Linking(r, Run(cfg, r, Announce(r)), job, |h.sessions|)
  {
    assert r.act == Busy(job, AwaitReady(|h.sessions|)) && |h.sessions| < |r.sessions|;
    hide Next, Run, Linking, Launched, Announced, Linked;
    AnnounceStep(cfg, h, r, job);
    LinkStep(cfg, h, r, job);
    CommitStep(cfg, h, r, job);
    RunThree(cfg, r, Advance(Announcing(r, job.fence + 1)), Advance(Prompt(r)), Advance(Prompt(r)));
  }

  lemma LinkingCommits(cfg: Config, h: Host, r: Host, u: Host, job: Job)
    requires |r.sessions| == |h.sessions| + 1 && r.sent == h.sent && Linking(r, u, job, |h.sessions|)
    ensures Commits(h, Run(cfg, u, [Advance(Prompt(u))]), job)
  {
    assert [Advance(Prompt(u))][1..] == [];
    var v := Next(cfg, u, Advance(Prompt(u)));
    assert Run(cfg, v, []) == v;
  }

  /** From every sound state of a serving Host: a request accepted for the release it runs has a continuation that
      commits it. The candidate is linked, recorded, reported to have succeeded, and serves. */
  lemma GoodAnswersCommit(cfg: Config, h: Host, q: Request)
    requires Calm(h) && Accepts(h, q) && q.expectedCurrent == h.durable.link
    ensures exists events :: Commits(h, Run(cfg, h, [Activate(q, Prompt(h))] + events), JobOf(h, q))
  {
    var job := JobOf(h, q);
    assert job.previous == h.durable.link;
    hide Sound, Run, Drains, Launched, Linking, Commits, Calm, Accepts;
    var a := Run(cfg, h, Accepting(h, q));
    AcceptingDrains(cfg, h, q);
    assert a.sessions != [] && a.act.Busy? by { DrainsBusy(h, a, job); }
    var b := Run(cfg, a, Draining(a));
    DrainingLaunches(cfg, h, a, job);
    assert b.act.Busy? && |b.sessions| == |h.sessions| + 1 && b.sent == h.sent by { LaunchedBusy(h, b, job); }
    var c := Run(cfg, b, Announce(b));
    AnnouncingLinks(cfg, h, b, job);
    LinkingCommits(cfg, h, b, c, job);
    RunAppend(cfg, h, Accepting(h, q), Draining(a));
    RunAppend(cfg, h, Accepting(h, q) + Draining(a), Announce(b));
    RunAppend(cfg, h, Accepting(h, q) + Draining(a) + Announce(b), [Advance(Prompt(c))]);
    var rest := [Advance(Prompt(h)), Advance(Prompt(h))] + Draining(a) + Announce(b) + [Advance(Prompt(c))];
    assert [Activate(q, Prompt(h))] + rest == Accepting(h, q) + Draining(a) + Announce(b) + [Advance(Prompt(c))];
  }

  lemma DrainsBusy(h: Host, r: Host, job: Job)
    requires h.sessions != [] && Drains(h, r, job)
    ensures r.sessions != [] && r.act.Busy?
  {
  }

  lemma LaunchedBusy(h: Host, r: Host, job: Job)
    requires Launched(h, r, job)
    ensures r.act.Busy? && |r.sessions| == |h.sessions| + 1 && r.sent == h.sent
  {
  }

  // ---------------------------------------------------------------- a crashed Generation

  /** The recorded crashes still inside the window. */
  function Recent(cfg: Config, crashes: seq<int>, now: int): seq<int> {
    Within(crashes, now - cfg.window)
  }

  /** A serving Generation that exits is recorded as a crash and restarted exactly if the record can be written and
      the window then holds no more than the allowed number of crashes; otherwise the process ends. */
  lemma RestartsExactlyWhen(cfg: Config, h: Host, c: Choice)
    requires Calm(h) && h.ledger.clock <= c.now
    ensures var r := Next(cfg, h, Exit(Last(h), c));
            && (r.up <==> c.write && |Recent(cfg, h.crashes, c.now)| + 1 <= cfg.maxCrashes)
            && (c.write ==> r.durable.crashes == Recent(cfg, h.crashes, c.now) + [c.now])
            && (!c.write ==> r.durable == h.durable)
            && (r.up ==> r.restart == Delay(h.sessions[Last(h)].fence) && r.active.None? && !Alive(r, Last(h)))
  {
    hide Within;
  }

  /** A delayed restart goes on exactly if the linked release can be resolved and verified, and then starts what
      was linked; otherwise the process ends. */
  lemma RelaunchesExactlyWhen(cfg: Config, h: Host, c: Choice)
    requires h.up && !h.stopped && h.restart.Delay? && h.ledger.clock <= c.now
    ensures var r := Next(cfg, h, Event.Restart(c));
            && (r.up <==> c.ok)
            && (r.up ==> r == h.(restart := RestartLaunching(h.restart.fence, h.durable.link)))
  {
  }

  /** A restarted Generation takes over exactly with a READY in time and a greater fence; any other is killed. */
  lemma ReturnsExactlyWhen(cfg: Config, h: Host, c: Choice)
    requires h.up && h.restart.RestartReady? && h.restart.c < |h.sessions| && h.ledger.clock <= c.now
    ensures var r, i := Next(cfg, h, Event.Restart(c)), h.restart.c;
            if c.ok && Alive(h, i) && h.restart.fence < c.fence
            then && r.restart.NoRestart? && r.fences == h.fences + [c.fence]
                 && r.sessions == h.sessions[i := h.sessions[i].(ready := true, fence := c.fence, managed := false)]
            else && r.restart == RestartKilling(h.restart.fence, i) && r.fences == h.fences
                 && r.durable == h.durable
  {
  }

  // ---------------------------------------------------------------- a Host start

  /** A Host starts the linked release exactly within its crash budget, once the pruned list is written if anything
      was pruned, and with a release that verifies; it takes over the durable record. */
  lemma StartsExactlyWhen(cfg: Config, h: Host, now: int, write: bool, verified: bool, closed: bool)
    requires !h.up && h.ledger.clock <= now
    ensures var r, recent := Next(cfg, h, Boot(now, write, verified, closed)), Recent(cfg, h.durable.crashes, now);
            && (r.up <==> |recent| <= cfg.maxCrashes && (write || |recent| == |h.durable.crashes|) && verified)
            && (r.up ==> && r.sessions == h.sessions + [Session(h.durable.link, true, false, true, 0)]
                         && r.memory == h.durable.activation && r.crashes == r.durable.crashes == recent
                         && (r.stopped <==> closed))
            && r.durable.link == h.durable.link && r.durable.activation == h.durable.activation
  {
    hide Within;
  }

  /** The READY of a Host start: the Generation serves, unmanaged. Without a record that is all; a finished record is
      told again; an unfinished one is committed exactly if the started release is its target, else rolled back,
      and reported in a later step, unless it cannot be written, which ends the start. */
  lemma ReconcilesExactlyWhen(h: Host, c: Choice)
    requires h.up && h.boot.AwaitBoot? && Alive(h, 0) && h.active == Some(0) && |h.sessions| == 1
    ensures var r, release := OnBootReady(h, c), h.sessions[0].release;
            && r.fences == h.fences + [c.fence] && r.durable.link == h.durable.link
            && r.sessions[0].ready && r.sessions[0].fence == c.fence
            && match h.memory
               case None => r.boot == Booted && r.durable == h.durable && r.sent == h.sent && !r.sessions[0].managed
               case Some(a) =>
                 if a.phase in {Committed, RolledBack, Failed} then
                   && r.boot == Booted && r.durable == h.durable && !r.sessions[0].managed && |r.sent| == |h.sent| + 1
                   && var s := r.sent[|h.sent|];
                      && s.id == a.id && s.release == (if a.phase == Committed then a.target else a.previous)
                      && (s.verdict.Succeeded? <==> a.phase == Committed)
                      && (s.verdict.HasFailed? <==> a.phase == Failed)
                 else
                   && r.memory == Some(a.(phase := if release == a.target then Committed else RolledBack))
                   && r.sent == h.sent
                   && if c.write
                      then r.boot == Reporting(a.id) && r.durable.activation == r.memory && !r.sessions[0].managed
                        && r.stopped == h.stopped
                      else r.boot == BootStopping && r.stopped && r.durable == h.durable && r.sessions[0].managed
  {
  }

  /** A Host start whose Generation is refused, or does not announce itself, stops it, counts as a crash once it is
      gone, and ends the process without another Generation. */
  lemma FailedStartEnds(cfg: Config, h: Host, c: Choice)
    requires h.up && h.ledger.clock <= c.now
    ensures h.boot.AwaitBoot? ==>
              var r := OnBootUnready(h); r.stopped && r.boot == BootStopping && r.durable == h.durable
    ensures h.boot.BootStopping? ==>
              var r := OnBootGiveUp(cfg, h, c);
              if Alive(h, 0) then r == h
              else
                && !r.up && r.durable.link == h.durable.link
                && (c.write ==> r.durable.crashes == Recent(cfg, h.crashes, c.now) + [c.now])
                && (!c.write ==> r.durable == h.durable)
  {
    hide Within;
  }

  /** A restarted Generation that was refused: the loop waits for it to die, ends with a stopped Host, and otherwise
      records a crash and tries again within the budget. */
  lemma RefusedRestartExactlyWhen(cfg: Config, h: Host, c: Choice)
    requires h.up && h.restart.RestartKilling? && h.ledger.clock <= c.now
    ensures var r := Next(cfg, h, Event.Restart(c));
            if Alive(h, h.restart.c) then r == h
            else if h.stopped then r.up && r.restart.NoRestart? && r.durable == h.durable
            else
              && (r.up <==> c.write && |Recent(cfg, h.crashes, c.now)| + 1 <= cfg.maxCrashes)
              && (c.write ==> r.durable.crashes == Recent(cfg, h.crashes, c.now) + [c.now])
              && (r.up ==> r.restart == Delay(h.restart.fence) && r.sessions == h.sessions)
  {
    hide Within;
  }

  // ---------------------------------------------------------------- a rollback restores

  /** A candidate that is not ready in time, or with a stale fence, is killed; once it is gone the rollback begins. */
  lemma CandidateFails(cfg: Config, h: Host, c: Choice)
    requires h.up && !h.stopped && h.act.Busy? && h.ledger.clock <= c.now
    ensures var r, job := OnAdvance(cfg, h, c), h.act.job;
            && (h.act.at.AwaitReady? && h.act.at.c < |h.sessions| ==>
                  var i := h.act.at.c;
                  if c.ok && Alive(h, i) && job.fence < c.fence
                  then r.act == Busy(job, Stabilizing(i)) && r.fences == h.fences + [c.fence]
                  else r.act == Busy(job, Killing(i)) && r.fences == h.fences)
            && (h.act.at.Killing? && !Alive(h, h.act.at.c) && h.act.at.c != job.prior && h.active != Some(job.prior) ==>
                  r.act == Busy(job, RollbackVerifying) && r.durable == h.durable)
            && (h.act.at.RollbackStopping? ==>
                  r == if Alive(h, h.act.at.c) then h else h.(act := Busy(job, RollbackVerifying)))
  {
  }

  function Restoring(h: Host): seq<Event>
    requires h.act.Busy?
  {
    [Advance(Prompt(h)), Advance(Prompt(h)), Advance(Announcing(h, h.act.job.fence + 1))]
  }

  /** With good answers a rollback links, records and reports the previous release, and its Generation serves. */
  lemma GoodAnswersRestore(cfg: Config, h: Host)
    requires h.up && !h.stopped && h.act.Busy? && h.act.at.RollbackVerifying? && h.restart.NoRestart?
    ensures var job, n := h.act.job, |h.sessions|;
            var r := Run(cfg, h, Restoring(h) + [Advance(Prompt(h))]);
            && r.up && !r.stopped && r.act.Idle? && r.durable.link == job.previous && r.active == Some(n)
            && r.sessions == h.sessions + [Session(job.previous, true, true, false, job.fence + 1)]
            && r.durable.activation.Some?
            && (r.durable.activation.value.id, r.durable.activation.value.phase) == (job.q.id, RolledBack)
            && |r.sent| == |h.sent| + 1
            && var s := r.sent[|h.sent|];
               (s.verdict, s.id, s.release, s.stray) == (WasRolledBack, job.q.id, job.previous, false)
  {
    var u := Run(cfg, h, Restoring(h));
    RollbackReadies(cfg, h);
    RunAppend(cfg, h, Restoring(h), [Advance(Prompt(h))]);
    assert [Advance(Prompt(h))][1..] == [];
    var v := Next(cfg, u, Advance(Prompt(h)));
    assert Run(cfg, v, []) == v;
    assert Run(cfg, u, [Advance(Prompt(h))]) == v;
    hide Run;
  }

  lemma RollbackReadies(cfg: Config, h: Host)
    requires h.up && !h.stopped && h.act.Busy? && h.act.at.RollbackVerifying? && h.restart.NoRestart?
    ensures var job, n := h.act.job, |h.sessions|;
            var u := Run(cfg, h, Restoring(h));
            && u.up && !u.stopped && u.act == Busy(job, RollbackSettling(n)) && u.durable.link == job.previous
            && u.active == Some(n) && u.sent == h.sent && u.ledger == h.ledger && u.restart.NoRestart?
            && u.sessions == h.sessions + [Session(job.previous, true, true, true, job.fence + 1)]
            && u.durable.activation.Some?
            && (u.durable.activation.value.id, u.durable.activation.value.phase) == (job.q.id, RolledBack)
  {
    var job, n, c := h.act.job, |h.sessions|, Prompt(h);
    RunThree(cfg, h, Advance(c), Advance(c), Advance(Announcing(h, job.fence + 1)));
    var a := Next(cfg, h, Advance(c));
    assert a == h.(durable := h.durable.(link := job.previous), marks := a.marks, act := Busy(job, RollbackLaunching));
    var b := Next(cfg, a, Advance(c));
    assert b == Spawn(a, job.previous).(act := Busy(job, RollbackReady(n)));
  }
}
