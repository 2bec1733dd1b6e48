/** Runs of the Host, each from a fresh installation, that reach every exception of the theorems about
    verdicts, recovery reports and exclusive Generations. */
module HostExamples {
  import opened Wrappers
  import opened HostProtocol
  import opened HostSafety
  import opened HostUsurpation

  const CONFIG := Config(60, 3)

  function Installed(): Host {
    Host(Durable(1, None, []), false, false, None, [], [], None, Idle, Booted, NoRestart, [],
         Ledger(0, 0, []), [], Marks(false, false, false, false, false))
  }

  /** Every awaited operation succeeds at time 0; a READY carries this fence. */
  function Good(fence: int): Choice {
    Choice(true, true, true, true, fence, 0)
  }

  const UPGRADE := Request(7, 70, Exactly(2), 1)
  const NEXT_UPGRADE := Request(8, 80, Exactly(2), 1)

  // ---------------------------------------------------------------- an upgrade up to its READY

  /** Serving release 1, with the upgrade to release 2 accepted. */
  function Upgrading(): Host {
    Installed().(up := true, sessions := [Session(1, true, true, true, 5)], active := Some(0), fences := [5],
                 act := Busy(Job(UPGRADE, 0, 1, 1, 5), Resolving))
  }

  const JOB := Job(UPGRADE, 0, 1, 2, 5)

  function Noted(h: Host, a: Activation): Host {
    h.(memory := Some(a), durable := h.durable.(activation := Some(a)))
  }

  function Draining(): Host {
    Noted(Upgrading(), Record(JOB, Phase.Draining)).(sessions := [Session(1, false, true, true, 5)],
                                                     act := Busy(JOB, DrainingOld))
  }

  function CandidateReady(): Host {
    Noted(Draining(), Record(JOB, Starting))
    .(sessions := [Session(1, false, true, true, 5), Session(2, true, true, true, 6)], active := Some(1),
      fences := [5, 6], act := Busy(JOB, Stabilizing(1)))
  }

  lemma StartUpgrade()
    ensures Run(CONFIG, Installed(), [Boot(0, true, true, false), BootReady(Good(5)), Activate(UPGRADE, Good(0))])
      == Upgrading()
  {
    RunThree(CONFIG, Installed(), Boot(0, true, true, false), BootReady(Good(5)), Activate(UPGRADE, Good(0)));
    var h := Next(CONFIG, Installed(), Boot(0, true, true, false));
    assert h.sessions == [Session(1, true, false, true, 0)];
    var k := Next(CONFIG, h, BootReady(Good(5)));
    assert k.sessions == [Session(1, true, true, false, 5)];
  }

  lemma DrainPrior()
    ensures Run(CONFIG, Upgrading(), [Advance(Good(0)), Advance(Good(0)), Exit(0, Good(0))]) == Draining()
  {
    RunThree(CONFIG, Upgrading(), Advance(Good(0)), Advance(Good(0)), Exit(0, Good(0)));
    var h := Next(CONFIG, Upgrading(), Advance(Good(0)));
    assert h == Noted(Upgrading(), Record(JOB, Validating)).(act := Busy(JOB, Verifying));
    var k := Next(CONFIG, h, Advance(Good(0)));
    assert k == Noted(Upgrading(), Record(JOB, Phase.Draining)).(act := Busy(JOB, DrainingOld));
  }

  lemma StartCandidate()
    ensures Run(CONFIG, Draining(), [Advance(Good(0)), Advance(Good(0)), Advance(Good(6))]) == CandidateReady()
  {
    RunThree(CONFIG, Draining(), Advance(Good(0)), Advance(Good(0)), Advance(Good(6)));
    var h := Next(CONFIG, Draining(), Advance(Good(0)));
    assert h == Noted(Draining(), Record(JOB, Starting)).(active := None, act := Busy(JOB, Launching));
    var k := Next(CONFIG, h, Advance(Good(0)));
    assert k == CandidateSpawned();
    hide OnAdvance;
    CandidateAnnounces();
  }

  function CandidateSpawned(): Host {
    Noted(Draining(), Record(JOB, Starting))
    .(sessions := [Session(1, false, true, true, 5), Session(2, true, false, true, 0)], active := Some(1),
      act := Busy(JOB, AwaitReady(1)))
  }

  lemma CandidateAnnounces()
    ensures Next(CONFIG, CandidateSpawned(), Advance(Good(6))) == CandidateReady()
  {
  }

  // ---------------------------------------------------------------- a candidate dies after its committed record

  function CandidateDied(): Host {
    Noted(CandidateReady(), Record(JOB, Committed))
    .(durable := Durable(2, Some(Record(JOB, Committed)), []),
      sessions := [Session(1, false, true, true, 5), Session(2, false, true, true, 6)], act := Busy(JOB, Settling(1)))
  }

  function Relinked(): Host {
    CandidateDied().(durable := Durable(1, Some(Record(JOB, Committed)), []), active := None,
                     marks := Marks(true, true, false, false, false), act := Busy(JOB.(fence := 6), RollbackLaunching))
  }

  lemma CommitAndDie()
    ensures Run(CONFIG, CandidateReady(), [Advance(Good(0)), Advance(Good(0)), Exit(1, Good(0))]) == CandidateDied()
  {
    RunThree(CONFIG, CandidateReady(), Advance(Good(0)), Advance(Good(0)), Exit(1, Good(0)));
    var h := Next(CONFIG, CandidateReady(), Advance(Good(0)));
    assert h == CandidateReady().(durable := Durable(2, Some(Record(JOB, Starting)), []), act := Busy(JOB, Linked(1)));
    var k := Next(CONFIG, h, Advance(Good(0)));
    assert k == Noted(h, Record(JOB, Committed)).(act := Busy(JOB, Settling(1)));
  }

  lemma RollBack()
    ensures Run(CONFIG, CandidateDied(), [Advance(Good(0)), Advance(Good(0)), Advance(Good(0))]) == Relinked()
  {
    RunThree(CONFIG, CandidateDied(), Advance(Good(0)), Advance(Good(0)), Advance(Good(0)));
    var job := JOB.(fence := 6);
    var h := Next(CONFIG, CandidateDied(), Advance(Good(0)));
    assert h == CandidateDied().(active := None, marks := Marks(true, false, false, false, false),
                                 act := Busy(job, RollbackStopping(1)));
    var k := Next(CONFIG, h, Advance(Good(0)));
    assert k == h.(act := Busy(job, RollbackVerifying));
  }

  lemma ReplayAfterCrash()
    ensures Run(CONFIG, Relinked(), [HostCrash, Boot(0, true, true, false), BootReady(Good(7))]).sent
            == [Sent(Succeeded, 7, 2, 1, true, false, false)]
  {
    RunThree(CONFIG, Relinked(), HostCrash, Boot(0, true, true, false), BootReady(Good(7)));
    var h := Next(CONFIG, Relinked(), HostCrash);
    assert h == Installed().(durable := Relinked().durable, marks := Relinked().marks);
    var k := Next(CONFIG, h, Boot(0, true, true, false));
    assert k.up && k.sessions == [Session(1, true, false, true, 0)] && k.memory == h.durable.activation
      && k.durable.link == 1;
  }

  /** The candidate dies between its committed record and its settlement, the rollback relinks release 1,
      and the Host crashes: the next start reports that the upgrade to release 2 succeeded. */
  lemma CommittedThenRolledBack()
    ensures exists events :: Run(CONFIG, Installed(), events).sent == [Sent(Succeeded, 7, 2, 1, true, false, false)]
  {
    hide Run;
    var e1 := [Boot(0, true, true, false), BootReady(Good(5)), Activate(UPGRADE, Good(0))];
    var e2 := [Advance(Good(0)), Advance(Good(0)), Exit(0, Good(0))];
    var e3 := [Advance(Good(0)), Advance(Good(0)), Advance(Good(6))];
    var e4 := [Advance(Good(0)), Advance(Good(0)), Exit(1, Good(0))];
    var e5 := [Advance(Good(0)), Advance(Good(0)), Advance(Good(0))];
    var e6 := [HostCrash, Boot(0, true, true, false), BootReady(Good(7))];
    StartUpgrade(); DrainPrior(); StartCandidate(); CommitAndDie(); RollBack(); ReplayAfterCrash();
    RunAppend(CONFIG, Installed(), e1, e2);
    RunAppend(CONFIG, Installed(), e1 + e2, e3);
    RunAppend(CONFIG, Installed(), e1 + e2 + e3, e4);
    RunAppend(CONFIG, Installed(), e1 + e2 + e3 + e4, e5);
    RunAppend(CONFIG, Installed(), e1 + e2 + e3 + e4 + e5, e6);
  }

  // ---------------------------------------------------------------- a recovery report overtaken by a new request

  const NEXT_JOB := Job(NEXT_UPGRADE, 0, 1, 2, 6)

  /** Release 1 restarted after a Host crash in the middle of the first upgrade, not yet READY. */
  function Restarted(): Host {
    var record := Some(Record(JOB, Validating));
    Installed().(durable := Durable(1, record, []), up := true, memory := record, boot := AwaitBoot,
                 sessions := [Session(1, true, false, true, 0)], active := Some(0))
  }

  /** The recovered record is written but not yet reported, and a second upgrade is validating. */
  function Overtaken(): Host {
    Noted(Restarted(), Record(NEXT_JOB, Validating))
    .(boot := Reporting(7), sessions := [Session(1, true, true, true, 6)], fences := [6],
      marks := Marks(false, false, false, false, true), act := Busy(NEXT_JOB, Verifying))
  }

  function Misreported(): Host {
    Noted(Overtaken(), Record(NEXT_JOB, Phase.Draining))
    .(boot := Booted, sessions := [Session(1, false, true, true, 6)], act := Busy(NEXT_JOB, DrainingOld),
      marks := Marks(false, false, false, false, false), sent := [Sent(HasFailed, 8, 1, 1, false, false, true)])
  }

  function NextReady(): Host {
    Noted(Misreported(), Record(NEXT_JOB, Starting))
    .(sessions := [Session(1, false, true, true, 6), Session(2, true, true, true, 9)], active := Some(1),
      fences := [6, 9], act := Busy(NEXT_JOB, Stabilizing(1)))
  }

  lemma CrashWhileVerifying()
    ensures Run(CONFIG, Upgrading(), [Advance(Good(0)), HostCrash, Boot(0, true, true, false)]) == Restarted()
  {
    RunThree(CONFIG, Upgrading(), Advance(Good(0)), HostCrash, Boot(0, true, true, false));
    var h := Next(CONFIG, Upgrading(), Advance(Good(0)));
    assert h == Noted(Upgrading(), Record(JOB, Validating)).(act := Busy(JOB, Verifying));
    var k := Next(CONFIG, h, HostCrash);
    assert k == Installed().(durable := Durable(1, Some(Record(JOB, Validating)), []));
  }

  lemma Overtake()
    ensures Run(CONFIG, Restarted(), [BootReady(Good(6)), Activate(NEXT_UPGRADE, Good(0)), Advance(Good(0))])
      == Overtaken()
  {
    RunThree(CONFIG, Restarted(), BootReady(Good(6)), Activate(NEXT_UPGRADE, Good(0)), Advance(Good(0)));
    var h := Next(CONFIG, Restarted(), BootReady(Good(6)));
    assert h == Noted(Restarted(), Record(JOB, RolledBack))
                .(boot := Reporting(7), sessions := [Session(1, true, true, false, 6)], fences := [6]);
    var k := Next(CONFIG, h, Activate(NEXT_UPGRADE, Good(0)));
    assert k == h.(sessions := [Session(1, true, true, true, 6)],
                   act := Busy(NEXT_JOB.(target := 1), Resolving));
  }

  lemma ReportOvertaken()
    ensures Run(CONFIG, Overtaken(), [Report, Advance(Good(0)), Exit(0, Good(0))]) == Misreported()
  {
    RunThree(CONFIG, Overtaken(), Report, Advance(Good(0)), Exit(0, Good(0)));
    var h := Next(CONFIG, Overtaken(), Report);
    assert h == Overtaken().(boot := Booted, marks := Misreported().marks,
                             sent := [Sent(HasFailed, 8, 1, 1, false, false, true)]);
    var k := Next(CONFIG, h, Advance(Good(0)));
    assert k == Noted(h, Record(NEXT_JOB, Phase.Draining)).(act := Busy(NEXT_JOB, DrainingOld));
  }

  lemma StartNextCandidate()
    ensures Run(CONFIG, Misreported(), [Advance(Good(0)), Advance(Good(0)), Advance(Good(9))]) == NextReady()
  {
    RunThree(CONFIG, Misreported(), Advance(Good(0)), Advance(Good(0)), Advance(Good(9)));
    var h := Next(CONFIG, Misreported(), Advance(Good(0)));
    assert h == Noted(Misreported(), Record(NEXT_JOB, Starting)).(active := None, act := Busy(NEXT_JOB, Launching));
    var k := Next(CONFIG, h, Advance(Good(0)));
    assert k == NextSpawned();
    hide OnAdvance;
    NextAnnounces();
  }

  function NextSpawned(): Host {
    Noted(Misreported(), Record(NEXT_JOB, Starting))
    .(sessions := [Session(1, false, true, true, 6), Session(2, true, false, true, 0)], active := Some(1),
      act := Busy(NEXT_JOB, AwaitReady(1)))
  }

  lemma NextAnnounces()
    ensures Next(CONFIG, NextSpawned(), Advance(Good(9))) == NextReady()
  {
  }

  lemma SettleNext()
    ensures Run(CONFIG, NextReady(), [Advance(Good(0)), Advance(Good(0)), Advance(Good(0))]).sent
            == [Sent(HasFailed, 8, 1, 1, false, false, true), Sent(Succeeded, 8, 2, 2, false, false, false)]
  {
    RunThree(CONFIG, NextReady(), Advance(Good(0)), Advance(Good(0)), Advance(Good(0)));
    hide OnAdvance;
    NextLinks();
    NextCommits();
    NextSettles();
  }

  function NextLinked(): Host {
    NextReady().(durable := Durable(2, Some(Record(NEXT_JOB, Starting)), []), act := Busy(NEXT_JOB, Linked(1)))
  }

  function NextCommitted(): Host {
    Noted(NextLinked(), Record(NEXT_JOB, Committed)).(act := Busy(NEXT_JOB, Settling(1)))
  }

  lemma NextLinks()
    ensures Next(CONFIG, NextReady(), Advance(Good(0))) == NextLinked()
  {
  }

  lemma NextCommits()
    ensures Next(CONFIG, NextLinked(), Advance(Good(0))) == NextCommitted()
  {
  }

  lemma NextSettles()
    ensures Next(CONFIG, NextCommitted(), Advance(Good(0))).sent
            == [Sent(HasFailed, 8, 1, 1, false, false, true), Sent(Succeeded, 8, 2, 2, false, false, false)]
  {
  }

  /** The recovery of an earlier upgrade reads the record again after its write; a request accepted in
      between is reported as failed while it is still running, and later reported as succeeded. */
  lemma RecoveryReportsTheWrongRequest()
    ensures exists events ::
              Run(CONFIG, Installed(), events).sent
              == [Sent(HasFailed, 8, 1, 1, false, false, true), Sent(Succeeded, 8, 2, 2, false, false, false)]
  {
    hide Run;
    var e1 := [Boot(0, true, true, false), BootReady(Good(5)), Activate(UPGRADE, Good(0))];
    var e2 := [Advance(Good(0)), HostCrash, Boot(0, true, true, false)];
    var e3 := [BootReady(Good(6)), Activate(NEXT_UPGRADE, Good(0)), Advance(Good(0))];
    var e4 := [Report, Advance(Good(0)), Exit(0, Good(0))];
    var e5 := [Advance(Good(0)), Advance(Good(0)), Advance(Good(9))];
    var e6 := [Advance(Good(0)), Advance(Good(0)), Advance(Good(0))];
    StartUpgrade(); CrashWhileVerifying(); Overtake(); ReportOvertaken(); StartNextCandidate(); SettleNext();
    RunAppend(CONFIG, Installed(), e1, e2);
    RunAppend(CONFIG, Installed(), e1 + e2, e3);
    RunAppend(CONFIG, Installed(), e1 + e2 + e3, e4);
    RunAppend(CONFIG, Installed(), e1 + e2 + e3 + e4, e5);
    RunAppend(CONFIG, Installed(), e1 + e2 + e3 + e4 + e5, e6);
  }

  // ---------------------------------------------------------------- ACTIVATE from a rejected Generation

  const STALE_JOB := Job(UPGRADE, 1, 1, 2, 3)

  function Crashed(): Host {
    Installed().(durable := Durable(1, None, [0]), up := true, crashes := [0],
                 sessions := [Session(1, false, true, false, 5)],
                 restart := Delay(5), ledger := Ledger(0, 0, [Crash(0, true)]), fences := [5])
  }

  /** The restarted Generation announced fence 3, not above 5, and is being killed. */
  function Rejected(): Host {
    Crashed().(sessions := [Session(1, false, true, false, 5), Session(1, true, true, true, 3)], active := Some(1),
               restart := RestartKilling(5, 1))
  }

  function Usurped(): Host {
    Noted(Rejected(), Record(STALE_JOB, Phase.Draining))
    .(marks := Marks(false, false, true, true, false), act := Busy(STALE_JOB, DrainingOld))
  }

  function Buried(): Host {
    Noted(Usurped(), Record(STALE_JOB, Starting))
    .(durable := Durable(1, Some(Record(STALE_JOB, Starting)), [0, 0]), crashes := [0, 0], active := None,
      sessions := [Session(1, false, true, false, 5), Session(1, false, true, true, 3)],
      restart := Delay(5), ledger := Ledger(0, 0, [Crash(0, true), Crash(0, true)]), act := Busy(STALE_JOB, Launching))
  }

  lemma StartAndCrash()
    ensures Run(CONFIG, Installed(), [Boot(0, true, true, false), BootReady(Good(5)), Exit(0, Good(0))]) == Crashed()
  {
    RunThree(CONFIG, Installed(), Boot(0, true, true, false), BootReady(Good(5)), Exit(0, Good(0)));
    var h := Next(CONFIG, Installed(), Boot(0, true, true, false));
    assert h.sessions == [Session(1, true, false, true, 0)];
    var k := Next(CONFIG, h, BootReady(Good(5)));
    assert k.sessions == [Session(1, true, true, false, 5)];
  }

  lemma RestartWithStaleFence()
    ensures Run(CONFIG, Crashed(), [Event.Restart(Good(0)), Event.Restart(Good(0)), Event.Restart(Good(3))])
      == Rejected()
  {
    RunThree(CONFIG, Crashed(), Event.Restart(Good(0)), Event.Restart(Good(0)), Event.Restart(Good(3)));
    var h := Next(CONFIG, Crashed(), Event.Restart(Good(0)));
    assert h == Crashed().(restart := RestartLaunching(5, 1));
    var k := Next(CONFIG, h, Event.Restart(Good(0)));
    assert k == Crashed().(sessions := [Session(1, false, true, false, 5), Session(1, true, false, true, 0)],
                           active := Some(1), restart := RestartReady(5, 1));
  }

  lemma UsurpOnce()
    ensures Run(CONFIG, Rejected(), [Activate(UPGRADE, Good(0)), Advance(Good(0)), Advance(Good(0))]) == Usurped()
  {
    RunThree(CONFIG, Rejected(), Activate(UPGRADE, Good(0)), Advance(Good(0)), Advance(Good(0)));
    var h := Next(CONFIG, Rejected(), Activate(UPGRADE, Good(0)));
    assert h == Rejected().(marks := Marks(false, false, true, true, false),
                            act := Busy(STALE_JOB.(target := 1), Resolving));
    var k := Next(CONFIG, h, Advance(Good(0)));
    assert k == Noted(h, Record(STALE_JOB, Validating)).(act := Busy(STALE_JOB, Verifying));
  }

  function Dead(): Host {
    Usurped().(sessions := [Session(1, false, true, false, 5), Session(1, false, true, true, 3)])
  }

  lemma BuryStep()
    ensures Next(CONFIG, Noted(Dead(), Record(STALE_JOB, Starting)).(active := None, act := Busy(STALE_JOB, Launching)),
                 Event.Restart(Good(0))) == Buried()
  {
    assert Within([0], -60) == Within([0][..0], -60) + [0] == [0];
  }

  lemma Bury()
    ensures Run(CONFIG, Usurped(), [Exit(1, Good(0)), Advance(Good(0)), Event.Restart(Good(0))]) == Buried()
  {
    RunThree(CONFIG, Usurped(), Exit(1, Good(0)), Advance(Good(0)), Event.Restart(Good(0)));
    hide OnRestart;
    var h := Next(CONFIG, Usurped(), Exit(1, Good(0)));
    assert h == Dead();
    var k := Next(CONFIG, h, Advance(Good(0)));
    assert k == Noted(h, Record(STALE_JOB, Starting)).(active := None, act := Busy(STALE_JOB, Launching));
    BuryStep();
  }

  // ---------------------------------------------------------------- what a usurped lifetime can report

  const LAST := Request(9, 90, Exactly(3), 1)
  const LAST_JOB := Job(LAST, 3, 1, 3, 9)

  function RestartedBeside(): Host {
    Buried().(sessions := Buried().sessions + [Session(2, true, false, true, 0), Session(1, true, false, true, 0)],
              active := Some(3), restart := RestartReady(5, 3), act := Busy(STALE_JOB, AwaitReady(2)))
  }

  function SettlingBeside(): Host {
    var record := Some(Record(STALE_JOB, Committed));
    RestartedBeside().(
      durable := Durable(2, record, [0, 0]), memory := record, fences := [5, 8],
      sessions := Buried().sessions + [Session(2, true, true, true, 8), Session(1, true, false, true, 0)],
      act := Busy(STALE_JOB, Settling(2)))
  }

  /** Release 2 is committed and linked, but the active Generation runs release 1 and upgrades from it. */
  function UpgradingAgain(): Host {
    SettlingBeside().(
      fences := [5, 8, 9], restart := NoRestart,
        sent := [Sent(Succeeded, 7, 2, 2, false, true, false)],
      sessions := Buried().sessions + [Session(2, true, true, false, 8), Session(1, true, true, true, 9)],
      act := Busy(LAST_JOB.(target := 1), Resolving))
  }

  function StartedOnTwo(): Host {
    var record := Some(Record(LAST_JOB, Validating));
    Installed().(durable := Durable(2, record, [0, 0]), up := true, memory := record, crashes := [0, 0],
                 boot := AwaitBoot,
                 sessions := [Session(2, true, false, true, 0)], active := Some(0),
                 sent := UpgradingAgain().sent, ledger := Buried().ledger,
                   marks := Marks(false, false, false, true, false))
  }

  lemma SpawnBeside()
    ensures Run(CONFIG, Buried(), [Advance(Good(0)), Event.Restart(Good(0)), Event.Restart(Good(0))])
      == RestartedBeside()
  {
    RunThree(CONFIG, Buried(), Advance(Good(0)), Event.Restart(Good(0)), Event.Restart(Good(0)));
    var h := Next(CONFIG, Buried(), Advance(Good(0)));
    assert h == Buried().(sessions := Buried().sessions + [Session(2, true, false, true, 0)], active := Some(2),
                          act := Busy(STALE_JOB, AwaitReady(2)));
    var k := Next(CONFIG, h, Event.Restart(Good(0)));
    assert k == h.(restart := RestartLaunching(5, 1));
  }

  lemma CommitBeside()
    ensures Run(CONFIG, RestartedBeside(), [Advance(Good(8)), Advance(Good(0)), Advance(Good(0))]) == SettlingBeside()
  {
    RunThree(CONFIG, RestartedBeside(), Advance(Good(8)), Advance(Good(0)), Advance(Good(0)));
    var h := Next(CONFIG, RestartedBeside(), Advance(Good(8)));
    assert h == RestartedBeside().(
      fences := [5, 8], act := Busy(STALE_JOB, Stabilizing(2)),
      sessions := Buried().sessions + [Session(2, true, true, true, 8), Session(1, true, false, true, 0)]);
    var k := Next(CONFIG, h, Advance(Good(0)));
    assert k == h.(durable := Durable(2, Some(Record(STALE_JOB, Starting)), [0, 0]), act := Busy(STALE_JOB, Linked(2)));
  }

  function SettledBeside(): Host {
    SettlingBeside().(
      act := Idle, sent := [Sent(Succeeded, 7, 2, 2, false, true, false)],
      sessions := Buried().sessions + [Session(2, true, true, false, 8), Session(1, true, false, true, 0)])
  }

  function ServingOne(): Host {
    SettledBeside().(fences := [5, 8, 9], restart := NoRestart,
                     sessions := Buried().sessions
                       + [Session(2, true, true, false, 8), Session(1, true, true, false, 9)])
  }

  lemma SettleBeside()
    ensures Next(CONFIG, SettlingBeside(), Advance(Good(0))) == SettledBeside()
  {
  }

  lemma ServeOne()
    ensures Next(CONFIG, SettledBeside(), Event.Restart(Good(9))) == ServingOne()
  {
  }

  lemma UpgradeAgain()
    ensures Run(CONFIG, SettlingBeside(), [Advance(Good(0)), Event.Restart(Good(9)), Activate(LAST, Good(0))])
      == UpgradingAgain()
  {
    RunThree(CONFIG, SettlingBeside(), Advance(Good(0)), Event.Restart(Good(9)), Activate(LAST, Good(0)));
    hide OnAdvance, OnRestart;
    SettleBeside();
    ServeOne();
  }

  lemma CrashAgain()
    ensures Run(CONFIG, UpgradingAgain(), [Advance(Good(0)), HostCrash, Boot(0, true, true, false)]) == StartedOnTwo()
  {
    RunThree(CONFIG, UpgradingAgain(), Advance(Good(0)), HostCrash, Boot(0, true, true, false));
    hide OnAdvance;
    ValidateAgain();
    var k := Next(CONFIG, Next(CONFIG, UpgradingAgain(), Advance(Good(0))), HostCrash);
    assert k == Installed().(durable := StartedOnTwo().durable, sent := UpgradingAgain().sent,
                             ledger := Buried().ledger, marks := StartedOnTwo().marks);
    assert Within([0, 0], -60) == Within([0, 0][..1], -60) + [0];
    assert [0, 0][..1] == [0] && Within([0], -60) == Within([0][..0], -60) + [0];
  }

  lemma ValidateAgain()
    ensures var h := Next(CONFIG, UpgradingAgain(), Advance(Good(0)));
            h.up && h.durable == StartedOnTwo().durable && h.marks == Marks(false, false, true, true, false)
            && h.sent == UpgradingAgain().sent && h.ledger == Buried().ledger
  {
  }

  lemma ReportAgain()
    ensures Run(CONFIG, StartedOnTwo(), [BootReady(Good(10)), Report, Report]).sent
            == UpgradingAgain().sent + [Sent(WasRolledBack, 9, 1, 2, false, true, false)]
  {
    RunThree(CONFIG, StartedOnTwo(), BootReady(Good(10)), Report, Report);
    var h := Next(CONFIG, StartedOnTwo(), BootReady(Good(10)));
    assert h.up && h.boot == Reporting(9) && h.memory == Some(Record(LAST_JOB, RolledBack)) && h.durable.link == 2
           && h.sessions == [Session(2, true, true, false, 10)] && h.marks == StartedOnTwo().marks;
  }

  /** The record that a usurped lifetime leaves behind can be wrong about the link for good: here the next
      start reports a rollback to release 1 while release 2 is linked. */
  lemma UsurpedRecordIsWrong()
    ensures exists events ::
              var sent := Run(CONFIG, Installed(), events).sent;
              |sent| == 2 && sent[1] == Sent(WasRolledBack, 9, 1, 2, false, true, false)
  {
    hide Run;
    var e1 := [Boot(0, true, true, false), BootReady(Good(5)), Exit(0, Good(0))];
    var e2 := [Event.Restart(Good(0)), Event.Restart(Good(0)), Event.Restart(Good(3))];
    var e3 := [Activate(UPGRADE, Good(0)), Advance(Good(0)), Advance(Good(0))];
    var e4 := [Exit(1, Good(0)), Advance(Good(0)), Event.Restart(Good(0))];
    var e5 := [Advance(Good(0)), Event.Restart(Good(0)), Event.Restart(Good(0))];
    var e6 := [Advance(Good(8)), Advance(Good(0)), Advance(Good(0))];
    var e7 := [Advance(Good(0)), Event.Restart(Good(9)), Activate(LAST, Good(0))];
    var e8 := [Advance(Good(0)), HostCrash, Boot(0, true, true, false)];
    var e9 := [BootReady(Good(10)), Report, Report];
    StartAndCrash(); RestartWithStaleFence(); UsurpOnce(); Bury(); SpawnBeside(); CommitBeside(); UpgradeAgain();
    CrashAgain(); ReportAgain();
    RunAppend(CONFIG, Installed(), e1, e2);
    RunAppend(CONFIG, Installed(), e1 + e2, e3);
    RunAppend(CONFIG, Installed(), e1 + e2 + e3, e4);
    RunAppend(CONFIG, Installed(), e1 + e2 + e3 + e4, e5);
    RunAppend(CONFIG, Installed(), e1 + e2 + e3 + e4 + e5, e6);
    RunAppend(CONFIG, Installed(), e1 + e2 + e3 + e4 + e5 + e6, e7);
    RunAppend(CONFIG, Installed(), e1 + e2 + e3 + e4 + e5 + e6 + e7, e8);
    RunAppend(CONFIG, Installed(), e1 + e2 + e3 + e4 + e5 + e6 + e7 + e8, e9);
  }

  // ---------------------------------------------------------------- a committed record that was never written

  const LATE_JOB := JOB.(fence := 6)

  /** The committed record could not be written; the candidate is stopped and the rollback begins. */
  function Unwritten(): Host {
    CandidateReady().(
      durable := Durable(2, Some(Record(JOB, Starting)), []), memory := Some(Record(JOB, Committed)), active := None,
      sessions := [Session(1, false, true, true, 5), Session(2, false, true, true, 6)],
      act := Busy(LATE_JOB, RollbackStopping(1)))
  }

  /** Release 1 is linked again and its restored Generation has not announced itself yet. */
  function Restoring(): Host {
    Unwritten().(
      durable := Durable(1, Some(Record(JOB, Starting)), []), active := Some(2),
        marks := Marks(false, true, false, false, false),
      sessions := Unwritten().sessions + [Session(1, true, false, true, 0)], act := Busy(LATE_JOB, RollbackReady(2)))
  }

  function Failing(c: Choice): Choice {
    c.(write := false)
  }

  lemma FailToWrite()
    ensures Run(CONFIG, CandidateReady(), [Advance(Good(0)), Advance(Failing(Good(0))), Exit(1, Good(0))])
      == Unwritten()
  {
    RunThree(CONFIG, CandidateReady(), Advance(Good(0)), Advance(Failing(Good(0))), Exit(1, Good(0)));
    var h := Next(CONFIG, CandidateReady(), Advance(Good(0)));
    assert h == CandidateReady().(durable := Durable(2, Some(Record(JOB, Starting)), []), act := Busy(JOB, Linked(1)));
    var k := Next(CONFIG, h, Advance(Failing(Good(0))));
    assert k == h.(memory := Some(Record(JOB, Committed)), active := None, act := Busy(LATE_JOB, RollbackStopping(1)));
  }

  lemma Restore()
    ensures Run(CONFIG, Unwritten(), [Advance(Good(0)), Advance(Good(0)), Advance(Good(0))]) == Restoring()
  {
    RunThree(CONFIG, Unwritten(), Advance(Good(0)), Advance(Good(0)), Advance(Good(0)));
    var h := Next(CONFIG, Unwritten(), Advance(Good(0)));
    assert h == Unwritten().(act := Busy(LATE_JOB, RollbackVerifying));
    var k := Next(CONFIG, h, Advance(Good(0)));
    assert k == RelinkedUnwritten();
    hide OnAdvance;
    RestoredSpawns();
  }

  function RelinkedUnwritten(): Host {
    Unwritten().(durable := Restoring().durable, marks := Restoring().marks, act := Busy(LATE_JOB, RollbackLaunching))
  }

  lemma RestoredSpawns()
    ensures Next(CONFIG, RelinkedUnwritten(), Advance(Good(0))) == Restoring()
  {
  }

  lemma ReplayUnwritten()
    ensures var r := Run(CONFIG, Restoring(), [Advance(Good(6)), Activate(UPGRADE, Good(0)), Report]);
            r.sent == [Sent(Succeeded, 7, 2, 1, true, false, false)] && r.durable == Restoring().durable
  {
    RunThree(CONFIG, Restoring(), Advance(Good(6)), Activate(UPGRADE, Good(0)), Report);
    var h := Next(CONFIG, Restoring(), Advance(Good(6)));
    assert h == Restoring().(act := Busy(LATE_JOB, RollbackKilling(2)),
                             sessions := Unwritten().sessions + [Session(1, true, true, true, 6)]);
  }

  /** The committed record is not written, release 1 is linked again, and its restored Generation, which is
      being killed for a stale fence, asks again: it is told from memory that release 2 succeeded. */
  lemma UnwrittenSuccessReplayed()
    ensures exists events ::
              var r := Run(CONFIG, Installed(), events);
              r.sent == [Sent(Succeeded, 7, 2, 1, true, false, false)]
                && r.durable.activation == Some(Record(JOB, Starting))
  {
    hide Run;
    var e1 := [Boot(0, true, true, false), BootReady(Good(5)), Activate(UPGRADE, Good(0))];
    var e2 := [Advance(Good(0)), Advance(Good(0)), Exit(0, Good(0))];
    var e3 := [Advance(Good(0)), Advance(Good(0)), Advance(Good(6))];
    var e4 := [Advance(Good(0)), Advance(Failing(Good(0))), Exit(1, Good(0))];
    var e5 := [Advance(Good(0)), Advance(Good(0)), Advance(Good(0))];
    var e6 := [Advance(Good(6)), Activate(UPGRADE, Good(0)), Report];
    StartUpgrade(); DrainPrior(); StartCandidate(); FailToWrite(); Restore(); ReplayUnwritten();
    RunAppend(CONFIG, Installed(), e1, e2);
    RunAppend(CONFIG, Installed(), e1 + e2, e3);
    RunAppend(CONFIG, Installed(), e1 + e2 + e3, e4);
    RunAppend(CONFIG, Installed(), e1 + e2 + e3 + e4, e5);
    RunAppend(CONFIG, Installed(), e1 + e2 + e3 + e4 + e5, e6);
  }

  // ---------------------------------------------------------------- a success that nobody verified

  const RESTART := Request(7, 70, Current, 1)
  const RESTART_JOB := Job(RESTART, 0, 1, 1, 5)

  /** Serving release 1, with a restart of it accepted. */
  function Restarting(): Host {
    Upgrading().(act := Busy(RESTART_JOB, Resolving))
  }

  lemma StartRestart()
    ensures Run(CONFIG, Installed(), [Boot(0, true, true, false), BootReady(Good(5)), Activate(RESTART, Good(0))])
      == Restarting()
  {
    RunThree(CONFIG, Installed(), Boot(0, true, true, false), BootReady(Good(5)), Activate(RESTART, Good(0)));
    var h := Next(CONFIG, Installed(), Boot(0, true, true, false));
    assert h.sessions == [Session(1, true, false, true, 0)];
    var k := Next(CONFIG, h, BootReady(Good(5)));
    assert k.sessions == [Session(1, true, true, false, 5)];
  }

  function RestartResumed(): Host {
    Restarted().(durable := Durable(1, Some(Record(RESTART_JOB, Validating)), []),
                 memory := Some(Record(RESTART_JOB, Validating)))
  }

  lemma CrashBeforeVerifying()
    ensures Run(CONFIG, Restarting(), [Advance(Good(0)), HostCrash, Boot(0, true, true, false)]) == RestartResumed()
  {
    RunThree(CONFIG, Restarting(), Advance(Good(0)), HostCrash, Boot(0, true, true, false));
    var h := Next(CONFIG, Restarting(), Advance(Good(0)));
    assert h == Noted(Restarting(), Record(RESTART_JOB, Validating)).(act := Busy(RESTART_JOB, Verifying));
    var k := Next(CONFIG, h, HostCrash);
    assert k == Installed().(durable := RestartResumed().durable);
  }

  lemma ReportResumed()
    ensures Run(CONFIG, RestartResumed(), [BootReady(Good(6)), Report, Report]).sent
         == [Sent(Succeeded, 7, 1, 1, false, false, false)]
  {
    RunThree(CONFIG, RestartResumed(), BootReady(Good(6)), Report, Report);
    var h := Next(CONFIG, RestartResumed(), BootReady(Good(6)));
    assert h == Noted(RestartResumed(), Record(RESTART_JOB, Committed))
                .(boot := Reporting(7), sessions := [Session(1, true, true, false, 6)], fences := [6]);
    var k := Next(CONFIG, h, Report);
    assert k.boot.Booted?;
  }

  /** A restart of the linked release is accepted, the Host crashes before anything was verified or drained for
      it, and the next start reports that it succeeded. */
  lemma UnverifiedSuccessReported()
    ensures exists events :: Run(CONFIG, Installed(), events).sent == [Sent(Succeeded, 7, 1, 1, false, false, false)]
  {
    hide Run;
    var e1 := [Boot(0, true, true, false), BootReady(Good(5)), Activate(RESTART, Good(0))];
    var e2 := [Advance(Good(0)), HostCrash, Boot(0, true, true, false)];
    var e3 := [BootReady(Good(6)), Report, Report];
    StartRestart(); CrashBeforeVerifying(); ReportResumed();
    RunAppend(CONFIG, Installed(), e1, e2);
    RunAppend(CONFIG, Installed(), e1 + e2, e3);
  }

  // ---------------------------------------------------------------- two live Generations

  /** The condemned restart of a fresh installation is a dangerous one, so two Generations come to live. */
  lemma RejectedGenerationIntrudes()
    ensures exists events :: var r := Run(CONFIG, Installed(), events); r.marks.usurped && Alive(r, 2) && Alive(r, 3)
  {
    hide Run;
    var e1 := [Boot(0, true, true, false), BootReady(Good(5)), Exit(0, Good(0))];
    var e2 := [Event.Restart(Good(0)), Event.Restart(Good(0)), Event.Restart(Good(3))];
    StartAndCrash(); RestartWithStaleFence();
    RunAppend(CONFIG, Installed(), e1, e2);
    RejectedIsDangerous();
    UsurpationSplits(CONFIG, Rejected(), UPGRADE);
    var rest :| var r := Run(CONFIG, Rejected(), [Activate(UPGRADE, Prompt(Rejected()))] + rest);
                Alive(r, 2) && Alive(r, 3);
    var events := e1 + e2 + ([Activate(UPGRADE, Prompt(Rejected()))] + rest);
    RunAppend(CONFIG, Installed(), e1 + e2, [Activate(UPGRADE, Prompt(Rejected()))] + rest);
    var r := Run(CONFIG, Installed(), events);
    InitialInv(Installed());
    RunKeeps(CONFIG, Installed(), events);
    if !r.marks.usurped { assert false; }
  }

  lemma RejectedIsDangerous()
    ensures Dangerous(CONFIG, Rejected(), UPGRADE) && |Rejected().sessions| == 2
  {
  }
}
