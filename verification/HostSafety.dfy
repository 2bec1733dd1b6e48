/** Safety of the Host over all runs: truthful verdicts, one Generation at a time, rising fences,
    and a bounded number of automatic restarts. */
module HostSafety {
  import opened Wrappers
  import opened HostProtocol

  // ---------------------------------------------------------------- who may be alive

  function Last(h: Host): SessionId
    requires h.sessions != []
  {
    |h.sessions| - 1
  }

  predicate OwnsPrior(at: Stage) {
    at.Resolving? || at.Verifying? || at.DrainingOld? || at.FailSettling?
  }

  predicate OwnsNothing(at: Stage) {
    at.Launching? || at.RollbackVerifying? || at.RollbackLaunching?
  }

  /** `startRelease` has returned the newest session to the task. */
  predicate Returned(at: Stage) {
    at.Stabilizing? || at.Linked? || at.Settling? || at.RollbackSettling?
  }

  /** `stopSession` was called on the newest session. */
  predicate Released(at: Stage) {
    at.RollbackStopping? || at.AbortStopping? || at.FatalStopping?
  }

  predicate OwnsNewest(h: Host, at: Stage)
    requires h.sessions != []
  {
    match at
    case AwaitReady(c) => c == Last(h) && !h.sessions[c].ready
    case RollbackReady(c) => c == Last(h) && !h.sessions[c].ready
    case Killing(c) => c == Last(h)
    case Stabilizing(c) => c == Last(h)
    case Linked(c) => c == Last(h)
    case Settling(c) => c == Last(h)
    case RollbackStopping(c) => c == Last(h)
    case RollbackKilling(c) => c == Last(h)
    case RollbackSettling(c) => c == Last(h)
    case AbortStopping(c) => c == Last(h)
    case FatalStopping(c) => c == Last(h)
    case _ => false
  }

  /** The Host serves requests: no task owns the newest session, which is alive and ready. */
  predicate Serving(h: Host) {
    h.up && h.act.Idle? && h.restart.NoRestart? && !h.stopped && !h.boot.AwaitBoot?
  }

  predicate TaskShape(h: Host)
    requires h.sessions != []
  {
    match h.act
    case Busy(job, at) =>
      && h.restart.NoRestart? && !h.boot.AwaitBoot? && !h.boot.BootStopping?
      && job.prior < |h.sessions| && h.sessions[Last(h)].managed
      && (OwnsPrior(at) ==> job.prior == Last(h))
      && (OwnsPrior(at) || Returned(at) ==> h.sessions[Last(h)].ready)
      && (h.active.None? ==> h.stopped || OwnsNothing(at) || Released(at))
      && (OwnsNothing(at) ==> !h.sessions[Last(h)].alive)
      && (OwnsPrior(at) || OwnsNothing(at) || OwnsNewest(h, at))
      && (OwnsPrior(at) || OwnsNothing(at) || at.FatalStopping? || |h.sessions| >= 2)
      && (at.RollbackStopping? ==> h.active.None?)
      && (at.AbortStopping? || at.FatalStopping? ==> h.stopped)
    case Idle =>
      match h.restart
      case NoRestart =>
        Serving(h) ==> var s := h.sessions[Last(h)];
                       h.active == Some(Last(h)) && s.alive && s.ready && !s.managed
      case Delay(_) => !h.boot.AwaitBoot? && !h.boot.BootStopping? && !h.sessions[Last(h)].alive && h.active.None?
      case RestartLaunching(_, _) => !h.boot.AwaitBoot? && !h.boot.BootStopping? && !h.sessions[Last(h)].alive
        && h.active.None?
      case RestartReady(_, c) =>
        !h.boot.AwaitBoot? && !h.boot.BootStopping? && c == Last(h) && h.sessions[c].managed && !h.sessions[c].ready
        && (h.active.None? ==> h.stopped)
      case RestartKilling(_, c) =>
        !h.boot.AwaitBoot? && !h.boot.BootStopping? && c == Last(h) && h.sessions[c].managed
  }

  /** Every spawned session but the newest is dead; each task owns what its program point says. */
  predicate Shape(h: Host) {
    && (!h.up ==>
          && h.sessions == [] && h.active.None? && h.act.Idle? && h.boot.Booted? && h.restart.NoRestart?
          && !h.stopped && h.fences == [] && h.memory.None? && h.crashes == [])
    && (h.up ==>
          && h.sessions != []
          && (forall i :: 0 <= i < |h.sessions| - 1 ==> !h.sessions[i].alive)
          && (h.active.Some? ==> h.active.value == Last(h))
          && (h.boot.AwaitBoot? ==>
                && |h.sessions| == 1 && !h.sessions[0].ready && h.sessions[0].managed && h.fences == []
                && h.act.Idle? && h.restart.NoRestart? && (h.active.None? ==> h.stopped))
          && (h.boot.BootStopping? ==> h.stopped && |h.sessions| == 1 && h.act.Idle? && h.restart.NoRestart?)
          && TaskShape(h))
  }

  // ---------------------------------------------------------------- fences

  predicate Ascending(fences: seq<int>) {
    forall i, j :: 0 <= i < j < |fences| ==> fences[i] < fences[j]
  }

  /** `fence` is at least every fence returned so far, of which there is one. */
  predicate Tops(fences: seq<int>, fence: int) {
    fences != [] && fences[|fences| - 1] <= fence
  }

  predicate Fenced(h: Host) {
    && Ascending(h.fences)
    && (h.up && !h.boot.AwaitBoot? && !h.boot.BootStopping? ==>
          && h.sessions != [] && h.fences != []
          && (Serving(h) ==> Tops(h.fences, h.sessions[Last(h)].fence))
          && (match h.act
              case Busy(job, at) =>
                && (Returned(at) || OwnsPrior(at) ==> Tops(h.fences, h.sessions[Last(h)].fence))
                && (Returned(at) || at.AbortStopping? || at.FatalStopping? || Tops(h.fences, job.fence))
              case Idle =>
                match h.restart
                case NoRestart => true
                case Delay(f) => Tops(h.fences, f)
                case RestartLaunching(f, _) => Tops(h.fences, f)
                case RestartReady(f, _) => Tops(h.fences, f)
                case RestartKilling(f, _) => Tops(h.fences, f)))
  }

  // ---------------------------------------------------------------- link and record

  /** What a durable phase says about the `current` link. */
  predicate Consistent(link: Release, a: Option<Activation>) {
    match a
    case None => true
    case Some(a) =>
      match a.phase
      case Committed => link == a.target
      case RolledBack => link == a.previous
      case Validating => link == a.previous
      case Draining => link == a.previous
      case Starting => link == a.previous || link == a.target
      case Failed => true
  }

  /** Link, durable record and history. A rollback changes the link only under a record that says
      starting, or under a committed one whose candidate died before its settlement. */
  predicate LinkTruth(link: Release, a: Option<Activation>, m: Marks) {
    && (m.relinked ==> a.Some? && (a.value.phase.Starting? || m.exposed) && link == a.value.previous != a.value.target)
    && (m.exposed ==> a.Some? && a.value.phase.Committed? && (!m.relinked ==> link == a.value.target))
    && (!m.exposed ==> Consistent(link, a))
  }

  /** What the record in memory would claim if it were replayed. */
  predicate Telling(link: Release, memory: Option<Activation>, relinked: bool) {
    match memory
    case None => true
    case Some(a) =>
      && (a.phase.Committed? ==> (relinked <==> link != a.target))
      && (a.phase.RolledBack? ==> link == a.previous)
  }

  predicate TruthsOf(link: Release, a: Option<Activation>, memory: Option<Activation>, m: Marks) {
    m.disturbed || (LinkTruth(link, a, m) && Telling(link, memory, m.relinked))
  }

  predicate Truths(h: Host) {
    TruthsOf(h.durable.link, h.durable.activation, h.memory, h.marks)
  }

  /** A delivered success names a release that is not linked exactly when a rollback had changed the
      link under its record; a delivered rollback names the linked release. */
  predicate Truthful(s: Sent) {
    s.disturbed
    || ((s.verdict.Succeeded? ==> (s.release != s.link <==> s.relinked))
        && (s.verdict.WasRolledBack? ==> s.release == s.link))
  }

  predicate AllTruthful(sent: seq<Sent>) {
    forall s :: s in sent ==> Truthful(s)
  }

  /** Relinking `job.previous` keeps the truths. */
  predicate Undoable(h: Host, job: Job) {
    var link, a := h.durable.link, h.durable.activation;
    && (h.marks.relinked ==> link == job.previous)
    && (h.memory.Some? && h.memory.value.phase.RolledBack? ==> h.memory.value.previous == job.previous)
    && (h.marks.exposed && a.Some? ==> job.previous == a.value.previous || job.previous == link)
    && (h.marks.exposed || Consistent(job.previous, a))
    && (link != job.previous && !h.marks.exposed ==>
          a.Some? && a.value.phase.Starting? && a.value.previous == job.previous)
  }

  predicate StageLinks(h: Host, job: Job, at: Stage)
    requires h.sessions != [] && job.prior < |h.sessions|
  {
    var link, durable := h.durable.link, h.durable.activation;
    match at
    case Resolving => link == job.previous == h.sessions[job.prior].release && h.memory == durable
    case Verifying => link == job.previous == h.sessions[job.prior].release
      && h.memory == durable == Some(Record(job, Validating))
    case DrainingOld => link == job.previous && h.memory == durable == Some(Record(job, Draining))
    case Launching => link == job.previous && !h.marks.relinked && h.memory == durable == Some(Record(job, Starting))
    case AwaitReady(c) => link == job.previous && !h.marks.relinked
      && h.memory == durable == Some(Record(job, Starting)) && h.sessions[Last(h)].release == job.target
    case Killing(c) => link == job.previous && !h.marks.relinked && h.memory == durable == Some(Record(job, Starting))
    case Stabilizing(c) => link == job.previous && !h.marks.relinked
      && h.memory == durable == Some(Record(job, Starting)) && h.sessions[Last(h)].release == job.target
    case Linked(c) => link == job.target && !h.marks.relinked && h.memory == durable == Some(Record(job, Starting))
      && h.sessions[Last(h)].release == job.target
    case Settling(c) => link == job.target && !h.marks.relinked
      && h.memory == durable == Some(Record(job, Committed)) && h.sessions[Last(h)].release == job.target
    case FailSettling => link == job.previous == h.sessions[job.prior].release && h.memory == durable
      && durable.Some? && durable.value.phase.Failed?
    case RollbackStopping(c) => h.marks.disturbed || Undoable(h, job)
    case RollbackVerifying => h.marks.disturbed || Undoable(h, job)
    case RollbackLaunching => link == job.previous
    case RollbackReady(c) => link == job.previous == h.sessions[Last(h)].release
    case RollbackKilling(c) => link == job.previous
    case RollbackSettling(c) => link == job.previous == h.sessions[Last(h)].release && h.memory == durable
    case AbortStopping(c) => true
    case FatalStopping(c) => true
  }

  /** A reconciled record whose write failed may still be written with the crash record. */
  predicate Reconciled(h: Host) {
    || h.memory == h.durable.activation
    || (h.memory.Some? && h.durable.activation.Some? && h.memory.value.id == h.durable.activation.value.id
        && ((h.memory.value.phase.Committed? && h.durable.link == h.memory.value.target)
            || (h.memory.value.phase.RolledBack? && (h.marks.disturbed || h.durable.link == h.memory.value.previous))))
  }

  predicate IdleLinks(h: Host)
    requires h.sessions != []
  {
    && (h.boot.AwaitBoot? ==> h.memory == h.durable.activation && h.sessions[Last(h)].release == h.durable.link)
    && (h.act.Idle? && !h.stopped ==> h.memory == h.durable.activation)
    && (h.boot.BootStopping? ==> Reconciled(h))
    && (Serving(h) ==> h.sessions[Last(h)].release == h.durable.link)
    && (h.act.Idle? ==>
          match h.restart
          case NoRestart => true
          case Delay(_) => true
          case RestartLaunching(_, release) => release == h.durable.link
          case RestartReady(_, _) => h.sessions[Last(h)].release == h.durable.link
          case RestartKilling(_, _) => true)
  }

  predicate Linking(h: Host) {
    && Truths(h) && AllTruthful(h.sent)
    && (h.up ==>
          && h.sessions != []
          && (h.act.Busy? ==> h.act.job.prior < |h.sessions| && StageLinks(h, h.act.job, h.act.at))
          && IdleLinks(h))
  }

  /** In a usurped lifetime two tasks may drive the Host at once; nothing is claimed but the history. */
  predicate Inv(h: Host) {
    if h.marks.usurped then h.up && h.marks.disturbed && AllTruthful(h.sent)
    else Shape(h) && Fenced(h) && Linking(h)
  }

  /** The invariant of a lifetime that was not usurped. */
  predicate Sound(h: Host) {
    !h.marks.usurped && Shape(h) && Fenced(h) && Linking(h)
  }

  lemma InitialInv(h: Host)
    requires Initial(h)
    ensures Inv(h)
  {
  }

  // ---------------------------------------------------------------- the catch blocks

  /** What holds wherever `activate` throws. */
  predicate FailReady(h: Host, job: Job, oldStopped: bool, candidate: Option<SessionId>) {
    && h.up && h.sessions != [] && h.restart.NoRestart? && !h.boot.AwaitBoot? && !h.boot.BootStopping?
    && (forall i :: 0 <= i < |h.sessions| - 1 ==> !h.sessions[i].alive)
    && (h.active.Some? ==> h.active.value == Last(h))
    && job.prior < |h.sessions| && h.sessions[Last(h)].managed
    && (!oldStopped ==> candidate.None? && job.prior == Last(h) && h.sessions[Last(h)].ready
                        && (h.active.None? ==> h.stopped))
    && (candidate.Some? ==> candidate.value == Last(h) && |h.sessions| >= 2)
    && (oldStopped && candidate.None? ==> !h.sessions[Last(h)].alive)
    && Ascending(h.fences) && h.fences != []
    && (candidate.Some? || !oldStopped ==> Tops(h.fences, h.sessions[Last(h)].fence))
    && (candidate.None? ==> Tops(h.fences, job.fence))
    && !h.marks.usurped && Truths(h) && AllTruthful(h.sent) && (h.marks.disturbed || Undoable(h, job))
    && (!oldStopped ==> h.durable.link == job.previous == h.sessions[Last(h)].release)
  }

  lemma FailWhenStopped(h: Host, job: Job, i: SessionId, write: bool)
    requires h.stopped && !Alive(h, i)
    ensures Fail(h, job, true, Some(i), write) == h.(act := Idle)
  {
  }

  lemma FailShape(h: Host, job: Job, oldStopped: bool, candidate: Option<SessionId>, write: bool)
    requires FailReady(h, job, oldStopped, candidate)
    ensures Shape(Fail(h, job, oldStopped, candidate, write))
  {
    hide Tops, Ascending, Consistent, Truthful;
    if candidate.Some? { FailShapeCandidate(h, job, candidate.value, write); }
  }

  lemma FailShapeCandidate(h: Host, job: Job, i: SessionId, write: bool)
    requires FailReady(h, job, true, Some(i))
    ensures Shape(Fail(h, job, true, Some(i), write))
  {
    hide Tops, Ascending, Consistent, Truthful;
  }

  lemma FailFenced(h: Host, job: Job, oldStopped: bool, candidate: Option<SessionId>, write: bool)
    requires FailReady(h, job, oldStopped, candidate)
    ensures Fenced(Fail(h, job, oldStopped, candidate, write))
  {
  }

  lemma FailLinking(h: Host, job: Job, oldStopped: bool, candidate: Option<SessionId>, write: bool)
    requires FailReady(h, job, oldStopped, candidate)
    ensures Linking(Fail(h, job, oldStopped, candidate, write))
  {
  }

  lemma FailKeeps(h: Host, job: Job, oldStopped: bool, candidate: Option<SessionId>, write: bool)
    requires FailReady(h, job, oldStopped, candidate)
    ensures Sound(Fail(h, job, oldStopped, candidate, write))
  {
    FailShape(h, job, oldStopped, candidate, write);
    FailFenced(h, job, oldStopped, candidate, write);
    FailLinking(h, job, oldStopped, candidate, write);
  }

  /** What holds wherever `rollback` throws: the candidate is gone, and the newest session, if alive, is the
      restored one. */
  predicate RollbackFailReady(h: Host, job: Job) {
    && h.up && h.sessions != [] && h.restart.NoRestart? && !h.boot.AwaitBoot? && !h.boot.BootStopping?
    && (forall i :: 0 <= i < |h.sessions| - 1 ==> !h.sessions[i].alive)
    && (h.active.Some? ==> h.active.value == Last(h))
    && job.prior < |h.sessions| && h.sessions[Last(h)].managed
    && (h.active.None? ==> h.stopped || !h.sessions[Last(h)].alive)
    && Ascending(h.fences) && h.fences != []
    && !h.marks.usurped && Truths(h) && AllTruthful(h.sent)
  }

  lemma RollbackFailShape(h: Host, job: Job, write: bool)
    requires RollbackFailReady(h, job)
    ensures Shape(RollbackFail(h, job, write))
  {
    hide Tops, Ascending, Consistent, Truthful;
  }

  lemma RollbackFailLinking(h: Host, job: Job, write: bool)
    requires RollbackFailReady(h, job)
    ensures Linking(RollbackFail(h, job, write))
  {
    hide Tops, Ascending, Truthful;
  }

  lemma RollbackFailKeeps(h: Host, job: Job, write: bool)
    requires RollbackFailReady(h, job)
    ensures Sound(RollbackFail(h, job, write))
  {
    hide Shape, Linking, Consistent, Truthful;
    RollbackFailShape(h, job, write);
    RollbackFailLinking(h, job, write);
  }

  // ---------------------------------------------------------------- crash handling

  /** The active, unmanaged session has died while no task was running. */
  predicate CrashReady(h: Host, i: SessionId) {
    && h.up && !h.stopped && h.sessions != [] && i == Last(h)
    && (forall j :: 0 <= j < |h.sessions| ==> !h.sessions[j].alive)
    && h.restart.NoRestart? && !h.boot.AwaitBoot? && !h.boot.BootStopping?
    && Tops(h.fences, h.sessions[i].fence) && Ascending(h.fences)
    && !h.marks.usurped && Truths(h) && AllTruthful(h.sent) && h.memory == h.durable.activation
  }

  /** A crash record that is written rewrites the durable activation with an equal one. */
  lemma RecordedTruths(cfg: Config, h: Host, now: int, write: bool, restarts: bool)
    requires h.up && Truths(h) && AllTruthful(h.sent) && !h.marks.usurped && h.memory == h.durable.activation
    ensures var r := RecordCrash(cfg, h, now, write, restarts);
            && Truths(r) && AllTruthful(r.sent) && !r.marks.usurped
            && (if r.up then r == h.(crashes := r.crashes, durable := r.durable, ledger := r.ledger)
                             && r.durable.link == h.durable.link && r.durable.activation == h.memory
                else Sound(r))
  {
    hide Within, Consistent, Truthful;
  }

  lemma CrashExitKeeps(cfg: Config, h: Host, i: SessionId, now: int, write: bool)
    requires CrashReady(h, i)
    ensures var r := CrashExit(cfg, h, i, now, write);
            && Sound(r.(act := Idle))
            && (if r.up then r.sessions == h.sessions && r.act == h.act else Sound(r))
  {
    hide RecordCrash, TruthsOf, AllTruthful, Ascending;
    RecordedTruths(cfg, h.(active := None), now, write, true);
  }

  // ---------------------------------------------------------------- every step keeps the invariant

  lemma ResolvingKeeps(h: Host, c: Choice)
    requires Sound(h) && h.up && h.act.Busy? && h.act.at.Resolving?
    ensures Sound(AtResolving(h, h.act.job, c))
  {
    hide Fail;
    var job := h.act.job;
    if !c.ok {
      FailKeeps(h, job, false, None, c.record);
    } else {
      var known := job.(target := ResolvedTarget(job.q, job.previous));
      if !c.write { FailKeeps(Persist(h, Record(known, Validating), false), known, false, None, c.record); }
    }
  }

  lemma VerifyingKeeps(h: Host, c: Choice)
    requires Sound(h) && h.up && h.act.Busy? && h.act.at.Verifying?
    ensures Sound(AtVerifying(h, h.act.job, c))
  {
    hide Fail;
    var job := h.act.job;
    if !c.ok || h.stopped {
      FailKeeps(h, job, false, None, c.record);
    } else if !c.write {
      FailKeeps(Persist(h, Record(job, Draining), false), job, false, None, c.record);
    }
  }

  lemma DrainingKeeps(h: Host, c: Choice)
    requires Sound(h) && h.up && h.act.Busy? && h.act.at.DrainingOld?
    ensures Sound(AtDraining(h, h.act.job, c))
  {
    hide Fail, Truthful;
    var job := h.act.job;
    if !Alive(h, job.prior) {
      var r := Deactivate(h, job.prior);
      if h.stopped {
        FailKeeps(r, job, true, None, c.record);
      } else if !c.write {
        FailKeeps(Persist(r, Record(job, Starting), false), job, true, None, c.record);
      }
    }
  }

  lemma LaunchingKeeps(h: Host, c: Choice)
    requires Sound(h) && h.up && h.act.Busy? && h.act.at.Launching?
    ensures Sound(AtLaunching(h, h.act.job, c))
  {
    hide Fail;
    if h.stopped { FailKeeps(h, h.act.job, true, None, c.record); }
  }

  lemma AwaitReadyKeeps(h: Host, c: Choice)
    requires Sound(h) && h.up && h.act.Busy? && h.act.at.AwaitReady?
    ensures Sound(AtAwaitReady(h, h.act.job, h.act.at.c, c))
  {
    hide Consistent, Truthful;
    var r := AtAwaitReady(h, h.act.job, h.act.at.c, c);
    assert Shape(r) by { hide Tops, Ascending, Linking; }
    assert Linking(r) by { hide Tops, Ascending; }
  }

  lemma KillingKeeps(h: Host, c: Choice)
    requires Sound(h) && h.up && h.act.Busy? && h.act.at.Killing?
    ensures Sound(AtKilling(h, h.act.job, h.act.at.c, c))
  {
    hide Fail;
    var i := h.act.at.c;
    if !Alive(h, i) { FailKeeps(Deactivate(h, i), h.act.job, true, None, c.record); }
  }

  lemma StabilizingKeeps(h: Host, c: Choice)
    requires Sound(h) && h.up && h.act.Busy? && h.act.at.Stabilizing?
    ensures Sound(AtStabilizing(h, h.act.job, h.act.at.c, c))
  {
    hide Fail;
    var job, i := h.act.job, h.act.at.c;
    if !c.ok || h.stopped || !Alive(h, i) {
      FailKeeps(h, job, true, Some(i), c.record);
    } else if job.target != job.previous && !(c.write && c.moved) {
      FailKeeps(Link(h, job.target, c.moved), job, true, Some(i), c.record);
    }
  }

  lemma LinkedKeeps(h: Host, c: Choice)
    requires Sound(h) && h.up && h.act.Busy? && h.act.at.Linked?
    ensures Sound(AtLinked(h, h.act.job, h.act.at.c, c))
  {
    hide Fail;
    var job, i := h.act.job, h.act.at.c;
    if !h.stopped && !Alive(h, i) {
      FailKeeps(h, job, true, Some(i), c.record);
    } else if !h.stopped && !c.write {
      FailKeeps(Persist(h, Record(job, Committed), false), job, true, Some(i), c.record);
    }
  }

  lemma SettlingKeeps(h: Host, c: Choice)
    requires Sound(h) && h.up && h.act.Busy? && h.act.at.Settling?
    ensures Sound(AtSettling(h, h.act.job, h.act.at.c, c))
  {
    hide Fail;
    var job, i := h.act.job, h.act.at.c;
    if !Alive(h, i) {
      if h.stopped {
        FailWhenStopped(h, job, i, c.record);
      } else {
        FailKeeps(h.(marks := h.marks.(exposed := true)), job, true, Some(i), c.record);
      }
    }
  }

  lemma FailSettlingKeeps(cfg: Config, h: Host, c: Choice)
    requires Sound(h) && h.up && h.act.Busy? && h.act.at.FailSettling? && h.ledger.clock <= c.now
    ensures Sound(AtFailSettling(cfg, h, h.act.job, c))
  {
    hide CrashExit;
    var r := Manage(h, h.act.job.prior, false);
    if Unexpected(r, h.act.job.prior) { CrashExitKeeps(cfg, r, h.act.job.prior, c.now, c.write); }
  }

  lemma RollbackVerifyingKeeps(h: Host, c: Choice)
    requires Sound(h) && h.up && h.act.Busy? && h.act.at.RollbackVerifying?
    ensures Sound(AtRollbackVerifying(h, h.act.job, c))
  {
    hide RollbackFail;
    var job := h.act.job;
    if !c.ok {
      RollbackFailKeeps(h, job, c.record);
    } else if !h.stopped && !(c.write && c.moved) {
      RollbackFailKeeps(Relink(h, job.previous, c.moved), job, c.record);
    }
  }

  lemma RollbackLaunchingKeeps(h: Host)
    requires Sound(h) && h.up && h.act.Busy? && h.act.at.RollbackLaunching?
    ensures Sound(AtRollbackLaunching(h, h.act.job))
  {
  }

  lemma RollbackReadyKeeps(h: Host, c: Choice)
    requires Sound(h) && h.up && h.act.Busy? && h.act.at.RollbackReady?
    ensures Sound(AtRollbackReady(h, h.act.job, h.act.at.c, c))
  {
    hide RollbackFail;
    var job, i := h.act.job, h.act.at.c;
    if !c.ok || !Alive(h, i) {
      RestoreRejected(h, c);
    } else if c.fence <= job.fence {
      RestoreRejected(h, c);
    } else if !c.write {
      RestoredUnwritten(h, c);
    }
  }

  lemma RestoreRejected(h: Host, c: Choice)
    requires Sound(h) && h.up && h.act.Busy? && h.act.at.RollbackReady?
    requires !c.ok || !Alive(h, h.act.at.c) || c.fence <= h.act.job.fence
    ensures Sound(AtRollbackReady(h, h.act.job, h.act.at.c, c))
  {
    hide RollbackFail, Tops, Ascending;
  }

  lemma RestoredUnwritten(h: Host, c: Choice)
    requires Sound(h) && h.up && h.act.Busy? && h.act.at.RollbackReady?
    requires c.ok && Alive(h, h.act.at.c) && c.fence > h.act.job.fence && !c.write
    ensures Sound(AtRollbackReady(h, h.act.job, h.act.at.c, c))
  {
    hide RollbackFail;
    var job, i := h.act.job, h.act.at.c;
    var r := Put(h, i, h.sessions[i].(ready := true, fence := c.fence)).(fences := h.fences + [c.fence]);
    var named := job.(target := ResolvedTarget(job.q, job.previous));
    RollbackFailKeeps(Persist(r, Record(named, RolledBack), false), job, c.record);
  }

  lemma RollbackKillingKeeps(h: Host, i: SessionId, c: Choice)
    requires Sound(h) && h.up && h.act.Busy? && h.act.at == RollbackKilling(i) && !Alive(h, i)
    ensures Sound(RollbackFail(Deactivate(h, i), h.act.job, c.record))
  {
    hide RollbackFail;
    RollbackFailKeeps(Deactivate(h, i), h.act.job, c.record);
  }

  lemma RollbackSettlingKeeps(cfg: Config, h: Host, c: Choice)
    requires Sound(h) && h.up && h.act.Busy? && h.act.at.RollbackSettling? && h.ledger.clock <= c.now
    ensures Sound(AtRollbackSettling(cfg, h, h.act.job, h.act.at.c, c))
  {
    hide CrashExit;
    var r := Manage(h, h.act.at.c, false);
    if Unexpected(r, h.act.at.c) { CrashExitKeeps(cfg, r, h.act.at.c, c.now, c.write); }
  }

  lemma DownKeeps(h: Host)
    requires Truths(h) && AllTruthful(h.sent)
    ensures Sound(Down(h))
  {
    hide Truthful, Consistent;
  }

  lemma AdvanceKeeps(cfg: Config, h: Host, c: Choice)
    requires Sound(h)
    ensures Sound(OnAdvance(cfg, h, c))
  {
    hide AtResolving, AtVerifying, AtDraining, AtLaunching, AtAwaitReady, AtKilling, AtStabilizing, AtLinked,
      AtSettling;
    hide AtFailSettling, AtRollbackVerifying, AtRollbackLaunching, AtRollbackReady, AtRollbackSettling, RollbackFail;
    if h.up && h.act.Busy? && h.ledger.clock <= c.now {
      match h.act.at
      case Resolving => ResolvingKeeps(h, c);
      case Verifying => VerifyingKeeps(h, c);
      case DrainingOld => DrainingKeeps(h, c);
      case Launching => LaunchingKeeps(h, c);
      case AwaitReady(_) => AwaitReadyKeeps(h, c);
      case Killing(_) => KillingKeeps(h, c);
      case Stabilizing(_) => StabilizingKeeps(h, c);
      case Linked(_) => LinkedKeeps(h, c);
      case Settling(_) => SettlingKeeps(h, c);
      case FailSettling => FailSettlingKeeps(cfg, h, c);
      case RollbackVerifying => RollbackVerifyingKeeps(h, c);
      case RollbackLaunching => RollbackLaunchingKeeps(h);
      case RollbackReady(_) => RollbackReadyKeeps(h, c);
      case RollbackKilling(i) => if !Alive(h, i) { RollbackKillingKeeps(h, i, c); }
      case RollbackSettling(_) => RollbackSettlingKeeps(cfg, h, c);
      case FatalStopping(_) => DownKeeps(h);
      case _ =>
    }
  }

  // ---------------------------------------------------------------- the other events

  lemma DeliverKeeps(h: Host, i: SessionId, verdict: Verdict, id: nat, release: Release, stray: bool)
    requires Sound(h)
    requires Alive(h, i) ==>
      Truthful(Sent(verdict, id, release, h.durable.link, h.marks.relinked, h.marks.disturbed, stray))
    ensures Sound(Deliver(h, i, verdict, id, release, stray))
  {
    hide Tops, Ascending, TruthsOf, Truthful;
  }

  /** Replaying the record in memory says exactly what the link and the history allow. */
  lemma RecordIsTruthful(h: Host, a: Activation, stray: bool)
    requires Truths(h) && h.memory == Some(a)
    ensures Truthful(Sent(VerdictOf(a), a.id, NamedRelease(a), h.durable.link, h.marks.relinked, h.marks.disturbed,
                          stray))
  {
  }

  lemma BootKeeps(cfg: Config, h: Host, now: int, write: bool, verified: bool, closed: bool)
    requires Sound(h)
    ensures Sound(OnBoot(cfg, h, now, write, verified, closed))
  {
    hide Within;
  }

  /** A READY of the boot session with an activation that still has to be reconciled. */
  lemma ReconcileKeeps(h: Host, c: Choice)
    requires Sound(h) && h.up && h.boot.AwaitBoot? && h.memory.Some? && !Terminal(h.memory.value.phase)
    ensures Sound(OnBootReady(h, c))
  {
  }

  lemma BootReadyKeeps(h: Host, c: Choice)
    requires Sound(h)
    ensures Sound(OnBootReady(h, c))
  {
    hide Deliver;
    if h.up && h.boot.AwaitBoot? && Alive(h, 0) {
      if h.memory.Some? && !Terminal(h.memory.value.phase) {
        ReconcileKeeps(h, c);
      } else {
        var r := Put(h, 0, h.sessions[0].(ready := true, fence := c.fence, managed := false))
                 .(fences := h.fences + [c.fence], boot := Booted);
        assert Sound(r);
        hide Sound;
        if h.memory.Some? {
          RecordIsTruthful(r, h.memory.value, false);
          DeliverKeeps(r, 0, VerdictOf(h.memory.value), h.memory.value.id, NamedRelease(h.memory.value), false);
        }
      }
    }
  }

  lemma BootUnreadyKeeps(h: Host)
    requires Sound(h)
    ensures Sound(OnBootUnready(h))
  {
  }

  lemma BootGiveUpKeeps(cfg: Config, h: Host, c: Choice)
    requires Sound(h)
    ensures Sound(OnBootGiveUp(cfg, h, c))
  {
    hide Within, Truthful, Ascending, Tops;
    if h.up && h.boot.BootStopping? && !Alive(h, 0) && h.ledger.clock <= c.now {
      var r := RecordCrash(cfg, Deactivate(h, 0), c.now, c.write, false);
      assert Truths(r) && AllTruthful(r.sent);
      DownKeeps(r);
    }
  }

  lemma ReportKeeps(h: Host)
    requires Sound(h)
    ensures Sound(OnReport(h))
  {
    hide Deliver;
    if h.up && h.boot.Reporting? {
      var r := h.(boot := Booted, marks := h.marks.(overtaken := false));
      assert Sound(r);
      if h.memory.Some? {
        RecordIsTruthful(r, h.memory.value, h.marks.overtaken);
        DeliverKeeps(r, 0, VerdictOf(h.memory.value), h.memory.value.id, NamedRelease(h.memory.value),
                     h.marks.overtaken);
      }
    }
  }

  lemma ExitKeeps(cfg: Config, h: Host, i: SessionId, c: Choice)
    requires Sound(h)
    ensures Sound(OnExit(cfg, h, i, c))
  {
    hide CrashExit;
    if h.up && Alive(h, i) && h.ledger.clock <= c.now {
      var r := Put(h, i, h.sessions[i].(alive := false));
      if Unexpected(r, i) {
        CrashExitKeeps(cfg, r, i, c.now, c.write);
        var e := CrashExit(cfg, r, i, c.now, c.write);
        assert e.up ==> e == e.(act := Idle);
      }
    }
  }

  lemma LateReadyKeeps(h: Host, c: Choice)
    requires Sound(h)
    ensures Sound(OnLateReady(h, c))
  {
    hide Tops, Ascending, TruthsOf, AllTruthful;
  }

  lemma AcceptKeeps(h: Host, i: SessionId, q: Request, c: Choice)
    requires Sound(h) && Serving(h) && h.active == Some(i)
    ensures Sound(Accept(h, i, q, c))
  {
    hide Fail;
    var previous := h.sessions[i].release;
    var job := Job(q, i, previous, previous, h.sessions[i].fence);
    if q.expectedCurrent != previous {
      FailKeeps(Manage(h, i, true).(act := Busy(job, Resolving)), job, false, None, c.record);
    }
  }

  lemma ReplayedKeeps(h: Host, i: SessionId, q: Request, a: Activation)
    requires Sound(h) && h.memory == Some(a) && i < |h.sessions|
    ensures Sound(Replayed(h, i, q, a))
  {
    hide Deliver, TruthsOf;
    RecordIsTruthful(h, a, false);
    DeliverKeeps(h, i, Conflicts, q.id, h.sessions[i].release, false);
    DeliverKeeps(h, i, VerdictOf(a), a.id, NamedRelease(a), false);
  }

  /** An ACTIVATE keeps the invariant, unless a condemned restart has it accepted. */
  lemma ActivateKeeps(h: Host, q: Request, c: Choice)
    requires Sound(h) && !Usurps(h, q)
    ensures Sound(OnActivate(h, q, c))
  {
    hide Accept, Deliver, Replayed;
    if MayActivate(h) {
      var i := h.active.value;
      if h.memory.Some? && h.memory.value.id == q.id {
        ReplayedKeeps(h, i, q, h.memory.value);
      } else if h.act.Busy? {
        DeliverKeeps(h, i, Blocked, q.id, h.sessions[i].release, false);
      } else {
        assert Serving(h);
        assert Sound(Admitted(h, q));
        AcceptKeeps(Admitted(h, q), i, q, c);
      }
    }
  }

  lemma RestartKillingKeeps(cfg: Config, h: Host, f: int, i: SessionId, c: Choice)
    requires Sound(h) && h.up && !h.stopped && h.restart == RestartKilling(f, i) && !Alive(h, i)
    ensures var r := RecordCrash(cfg, Deactivate(h, i), c.now, c.write, true);
            Sound(if r.up then r.(restart := Delay(f)) else r)
  {
    hide RecordCrash, TruthsOf, AllTruthful;
    RecordedTruths(cfg, Deactivate(h, i), c.now, c.write, true);
  }

  lemma RestartRejects(cfg: Config, h: Host, f: int, i: SessionId, c: Choice)
    requires Sound(h) && h.up && h.restart == RestartReady(f, i) && h.ledger.clock <= c.now
    requires !c.ok || !Alive(h, i) || c.fence <= f
    ensures Sound(OnRestart(cfg, h, c))
  {
    hide RecordCrash, Ascending, TruthsOf, AllTruthful;
  }

  lemma RestartReturns(cfg: Config, h: Host, f: int, i: SessionId, c: Choice)
    requires Sound(h) && h.up && h.restart == RestartReady(f, i) && h.ledger.clock <= c.now
    requires c.ok && Alive(h, i) && f < c.fence
    ensures Sound(OnRestart(cfg, h, c))
  {
    hide RecordCrash, TruthsOf, AllTruthful;
  }

  lemma RestartKeeps(cfg: Config, h: Host, c: Choice)
    requires Sound(h)
    ensures Sound(OnRestart(cfg, h, c))
  {
    hide RecordCrash, TruthsOf, AllTruthful;
    if h.up && h.ledger.clock <= c.now {
      match h.restart
      case NoRestart =>
      case Delay(_) => if !h.stopped && !c.ok { DownKeeps(h); }
      case RestartLaunching(_, _) =>
      case RestartReady(f, i) =>
        if c.ok && Alive(h, i) && f < c.fence {
          RestartReturns(cfg, h, f, i, c);
        } else {
          RestartRejects(cfg, h, f, i, c);
        }
      case RestartKilling(f, i) => if !Alive(h, i) && !h.stopped { RestartKillingKeeps(cfg, h, f, i, c); }
    }
  }

  lemma CloseShape(h: Host)
    requires Shape(h)
    ensures Shape(OnClose(h))
  {
    if h.up {
      assert OnClose(h).sessions == h.sessions || (h.active.Some? && OnClose(h).sessions
             == h.sessions[h.active.value := h.sessions[h.active.value].(managed := true)]);
    }
  }

  lemma CloseFenced(h: Host)
    requires Shape(h) && Fenced(h)
    ensures Fenced(OnClose(h))
  {
    hide TaskShape;
  }

  lemma CloseLinking(h: Host)
    requires Shape(h) && Linking(h)
    ensures Linking(OnClose(h))
  {
    hide TaskShape, LinkTruth, Telling, AllTruthful;
    if h.up {
      var r := OnClose(h);
      assert r.durable == h.durable && r.memory == h.memory && r.act == h.act && |r.sessions| == |h.sessions|;
      assert forall i :: 0 <= i < |h.sessions| ==> r.sessions[i].release == h.sessions[i].release;
    }
  }

  lemma CloseKeeps(h: Host)
    requires Sound(h)
    ensures Sound(OnClose(h))
  {
    hide Shape, Fenced, Linking;
    CloseShape(h);
    CloseFenced(h);
    CloseLinking(h);
  }

  // ---------------------------------------------------------------- usurped lifetimes

  /** One step of such a lifetime: it goes on, or the process is gone. */
  predicate StaysUsurped(h: Host, r: Host) {
    && Speaks(h, r) && r.marks.disturbed
    && (if r.up then r.marks.usurped else Reset(r))
  }

  lemma StaysUsurpedKeeps(h: Host, r: Host)
    requires h.marks.disturbed && AllTruthful(h.sent) && StaysUsurped(h, r)
    ensures Inv(r)
  {
    forall s | s in r.sent ensures Truthful(s) {
      var k :| 0 <= k < |r.sent| && r.sent[k] == s;
      if k < |h.sent| { assert r.sent[..|h.sent|][k] == s; }
    }
  }

  lemma CarriedUsurped(h: Host, r: Host)
    requires h.up && h.marks.usurped && h.marks.disturbed && Carries(h, r) && Speaks(h, r)
    ensures StaysUsurped(h, r)
  {
  }

  lemma AdvanceUsurped(cfg: Config, h: Host, c: Choice)
    requires h.up && h.marks.usurped && h.marks.disturbed
    ensures StaysUsurped(h, OnAdvance(cfg, h, c))
  {
    hide AtResolving, AtVerifying, AtDraining, AtAwaitReady, AtKilling, AtStabilizing, AtLinked, AtSettling, Fail;
    hide AtFailSettling, AtRollbackVerifying, AtRollbackReady, AtRollbackSettling, RollbackFail;
    var r := OnAdvance(cfg, h, c);
    if h.act.Idle? || h.act.at.Launching? || h.act.at.RollbackLaunching? {
      assert r.sent == h.sent;
    } else {
      assert Carries(h, r) && Speaks(h, r);
      hide Carries, Speaks, StaysUsurped, OnAdvance;
      CarriedUsurped(h, r);
    }
  }

  lemma ActivateUsurped(h: Host, q: Request, c: Choice)
    requires h.up && h.marks.usurped && h.marks.disturbed
    ensures StaysUsurped(h, OnActivate(h, q, c))
  {
    hide Accept, Deliver;
  }

  lemma RestartUsurped(cfg: Config, h: Host, c: Choice)
    requires h.up && h.marks.usurped && h.marks.disturbed
    ensures StaysUsurped(h, OnRestart(cfg, h, c))
  {
    hide RecordCrash;
  }

  lemma ExitUsurped(cfg: Config, h: Host, i: SessionId, c: Choice)
    requires h.up && h.marks.usurped && h.marks.disturbed
    ensures StaysUsurped(h, OnExit(cfg, h, i, c))
  {
    hide CrashExit;
  }

  lemma BootReadyUsurped(h: Host, c: Choice)
    requires h.up && h.marks.usurped && h.marks.disturbed
    ensures StaysUsurped(h, OnBootReady(h, c))
  {
    hide Deliver, Speaks;
    var r := OnBootReady(h, c);
    if h.boot.AwaitBoot? && Alive(h, 0) && h.memory.Some? {
      if Terminal(h.memory.value.phase) {
        var booted := Put(h, 0, h.sessions[0].(ready := true, fence := c.fence, managed := false))
                      .(fences := h.fences + [c.fence], boot := Booted);
        SpokenUsurped(h, booted, SendRecord(booted, 0, h.memory.value));
      } else {
        UnspokenUsurped(h, r);
      }
    } else {
      UnspokenUsurped(h, r);
    }
    hide OnBootReady, StaysUsurped;
  }

  lemma SpokenUsurped(h: Host, m: Host, r: Host)
    requires m.sent == h.sent && m.marks == h.marks && Speaks(m, r) && r == m.(sent := r.sent)
    requires h.up && m.up && h.marks.usurped && h.marks.disturbed
    ensures StaysUsurped(h, r)
  {
  }

  lemma UnspokenUsurped(h: Host, r: Host)
    requires r.sent == h.sent && r.up && r.marks.usurped && r.marks.disturbed
    ensures StaysUsurped(h, r)
  {
  }

  lemma BootGiveUpUsurped(cfg: Config, h: Host, c: Choice)
    requires h.up && h.marks.usurped && h.marks.disturbed
    ensures StaysUsurped(h, OnBootGiveUp(cfg, h, c))
  {
    hide RecordCrash;
  }

  lemma NextUsurped(cfg: Config, h: Host, e: Event)
    requires h.up && h.marks.usurped && h.marks.disturbed
    ensures StaysUsurped(h, Next(cfg, h, e))
  {
    hide OnAdvance, OnActivate, OnRestart, OnExit, OnBootReady, OnBootGiveUp, Deliver;
    match e
    case BootReady(c) => BootReadyUsurped(h, c);
    case BootGiveUp(c) => BootGiveUpUsurped(cfg, h, c);
    case Exit(i, c) => ExitUsurped(cfg, h, i, c);
    case Activate(q, c) => ActivateUsurped(h, q, c);
    case Advance(c) => AdvanceUsurped(cfg, h, c);
    case Restart(c) => RestartUsurped(cfg, h, c);
    case _ =>
  }

  lemma UsurpingStarts(h: Host, q: Request, c: Choice)
    requires Sound(h) && Usurps(h, q)
    ensures Inv(OnActivate(h, q, c))
  {
    hide Accept;
    var r := Admitted(h, q);
    var n := OnActivate(h, q, c);
    assert Carries(r, n) && n.sent == h.sent;
    if !n.up { assert Reset(n); }
  }

  // ---------------------------------------------------------------- all runs

  lemma NextSound(cfg: Config, h: Host, e: Event)
    requires Sound(h) && !(e.Activate? && Usurps(h, e.q))
    ensures Sound(Next(cfg, h, e))
  {
    hide OnBoot, OnBootReady, OnBootUnready, OnBootGiveUp, OnReport, OnExit, OnLateReady, OnActivate, OnAdvance,
      OnRestart, OnClose;
    match e
    case Boot(now, write, verified, closed) => BootKeeps(cfg, h, now, write, verified, closed);
    case BootReady(c) => BootReadyKeeps(h, c);
    case BootUnready => BootUnreadyKeeps(h);
    case BootGiveUp(c) => BootGiveUpKeeps(cfg, h, c);
    case Report => ReportKeeps(h);
    case Exit(i, c) => ExitKeeps(cfg, h, i, c);
    case LateReady(c) => LateReadyKeeps(h, c);
    case Activate(q, c) => ActivateKeeps(h, q, c);
    case Advance(c) => AdvanceKeeps(cfg, h, c);
    case Restart(c) => RestartKeeps(cfg, h, c);
    case Close => CloseKeeps(h);
    case HostCrash => if h.up { DownKeeps(h); }
  }

  /** Every step keeps the invariant; one accepted request of a condemned restart makes the lifetime a
      usurped one, and the end of the process ends it. */
  lemma NextKeeps(cfg: Config, h: Host, e: Event)
    requires Inv(h)
    ensures Inv(Next(cfg, h, e))
  {
    hide Next, Shape, Fenced, Linking, AllTruthful;
    if h.marks.usurped {
      NextUsurped(cfg, h, e);
      StaysUsurpedKeeps(h, Next(cfg, h, e));
    } else if e.Activate? && Usurps(h, e.q) {
      UsurpingStarts(h, e.q, e.choice);
      assert Next(cfg, h, e) == OnActivate(h, e.q, e.choice) by { ActivateIsNext(cfg, h, e.q, e.choice); }
    } else {
      NextSound(cfg, h, e);
    }
  }

  lemma ActivateIsNext(cfg: Config, h: Host, q: Request, c: Choice)
    ensures Next(cfg, h, Activate(q, c)) == OnActivate(h, q, c)
  {
  }

  lemma {:induction false} RunKeeps(cfg: Config, h: Host, events: seq<Event>)
    requires Inv(h)
    ensures Inv(Run(cfg, h, events))
    decreases |events|
  {
    hide Next, Inv;
    if events != [] {
      NextKeeps(cfg, h, events[0]);
      RunKeeps(cfg, Next(cfg, h, events[0]), events[1..]);
    }
  }

  /** In every durable state of every run the record disagrees with the link if and only if a candidate
      died between its committed record and its settlement and the rollback has changed the link since.
      Every reported success, direct, replayed or recovered, names a release that is not linked if and
      only if a rollback had changed the link under its record; every reported rollback names the linked
      one. Excepted are records and results of a lifetime that a condemned restart usurped. */
  lemma VerdictsAreTrue(cfg: Config, h: Host, events: seq<Event>)
    requires Initial(h)
    ensures var r := Run(cfg, h, events);
            && (!r.marks.disturbed ==>
                  (!Consistent(r.durable.link, r.durable.activation) <==> r.marks.exposed && r.marks.relinked))
            && (forall s :: s in r.sent && !s.disturbed && s.verdict.Succeeded? ==>
                  (s.release != s.link <==> s.relinked))
            && (forall s :: s in r.sent && !s.disturbed && s.verdict.WasRolledBack? ==> s.release == s.link)
  {
    InitialInv(h);
    RunKeeps(cfg, h, events);
    hide Run, Shape, Fenced;
  }

  /** In a lifetime that was not usurped at most one Generation is alive at any time; a new one is spawned
      only when every earlier one is dead, and the fences of those that took over rise strictly. */
  lemma GenerationsAreExclusive(cfg: Config, h: Host, events: seq<Event>, e: Event)
    requires Initial(h) && !Run(cfg, h, events).marks.usurped
    ensures var r := Run(cfg, h, events);
            && (forall i, j :: Alive(r, i) && Alive(r, j) ==> i == j)
            && (r.up && |Next(cfg, r, e).sessions| > |r.sessions| ==> forall i :: !Alive(r, i))
            && Ascending(r.fences)
  {
    InitialInv(h);
    RunKeeps(cfg, h, events);
    if Run(cfg, h, events).up { SpawnsAlone(cfg, Run(cfg, h, events), e); }
    hide Run, Next;
  }

  lemma TaskSpawnsAlone(cfg: Config, h: Host, c: Choice)
    requires Shape(h) && h.up && |OnAdvance(cfg, h, c).sessions| > |h.sessions|
    ensures h.act.Busy? && OwnsNothing(h.act.at)
  {
    hide AtResolving, AtVerifying, AtDraining, AtAwaitReady, AtKilling, AtStabilizing, AtLinked, AtSettling, Shape;
    hide AtFailSettling, AtRollbackVerifying, AtRollbackReady, AtRollbackSettling, RollbackFail;
  }

  lemma SpawnsAlone(cfg: Config, h: Host, e: Event)
    requires Shape(h) && h.up
    ensures |Next(cfg, h, e).sessions| > |h.sessions| ==> forall i :: !Alive(h, i)
  {
    hide OnAdvance, Accept, RollbackFail, RecordCrash, CrashExit, Deliver, Within;
    if e.Advance? && |Next(cfg, h, e).sessions| > |h.sessions| { TaskSpawnsAlone(cfg, h, e.choice); }
  }
}
