/** What a usurped lifetime leads to: whenever a restart's condemned session has a request accepted, two
    Generations can come to live at once, and the durable record can come to disagree with the link. */
module HostUsurpation {
  import opened Wrappers
  import opened HostProtocol
  import opened HostSafety

  /** Every awaited operation succeeds at once, and a READY announces fence `fence`. */
  function Announcing(h: Host, fence: int): Choice {
    Choice(true, true, true, true, fence, h.ledger.clock)
  }

  function Prompt(h: Host): Choice {
    Announcing(h, 0)
  }

  function Latest(times: seq<int>, t: int): (r: int)
    ensures t <= r && forall x :: x in times ==> x <= r
  {
    if times == [] then t
    else
      assert times == [times[0]] + times[1..];
      Latest(times[1..], if times[0] > t then times[0] else t)
  }

  /** As soon as every recorded crash has left the window. */
  function Patient(cfg: Config, h: Host): Choice {
    Prompt(h).(now := Latest(h.crashes, h.ledger.clock) + cfg.window)
  }

  lemma {:induction false} NoneWithin(times: seq<int>, after: int)
    requires forall x :: x in times ==> x <= after
    ensures Within(times, after) == []
  {
    if times != [] {
      var n := |times| - 1;
      assert times[n] in times;
      forall x | x in times[..n] ensures x <= after {
        assert x in times;
      }
      NoneWithin(times[..n], after);
    }
  }

  /** The condemned session's request is accepted for the release it runs. */
  predicate Dangerous(cfg: Config, h: Host, q: Request) {
    && Sound(h) && Usurps(h, q) && q.expectedCurrent == h.sessions[h.active.value].release
    && 0 < cfg.maxCrashes
  }

  /** The condemned session prepares its replacement while the restart loop still waits for it to die. */
  predicate TwoTasks(h: Host, n: nat, job: Job) {
    && h.up && !h.stopped && h.restart.RestartKilling? && h.restart.c == n - 1 && |h.sessions| == n
    && Alive(h, n - 1) && h.sessions[n - 1].managed && h.active == Some(n - 1)
    && job.prior == n - 1 && h.act == Busy(job, DrainingOld)
  }

  /** Both tasks are about to start a Generation. */
  predicate BothLaunching(h: Host, n: nat, job: Job) {
    h.up && !h.stopped && |h.sessions| == n && h.restart.Delay? && h.act == Busy(job, Launching)
  }

  lemma RunThree(cfg: Config, h: Host, a: Event, b: Event, c: Event)
    ensures Run(cfg, h, [a, b, c]) == Next(cfg, Next(cfg, Next(cfg, h, a), b), c)
  {
    hide Next;
    var h1 := Next(cfg, h, a);
    var h2 := Next(cfg, h1, b);
    assert [a, b, c][1..] == [b, c] && [b, c][1..] == [c] && [c][1..] == [];
    assert Run(cfg, h2, [c]) == Run(cfg, Next(cfg, h2, c), []);
    assert Run(cfg, h1, [b, c]) == Run(cfg, h2, [c]);
  }

  lemma {:induction false} RunAppend(cfg: Config, h: Host, a: seq<Event>, b: seq<Event>)
    ensures Run(cfg, h, a + b) == Run(cfg, Run(cfg, h, a), b)
    decreases |a|
  {
    hide Next;
    if a == [] {
      assert a + b == b;
    } else {
      assert (a + b)[0] == a[0] && (a + b)[1..] == a[1..] + b;
      RunAppend(cfg, Next(cfg, h, a[0]), a[1..], b);
    }
  }

  // ---------------------------------------------------------------- two live Generations

  function Usurp(h: Host, q: Request): seq<Event> {
    [Activate(q, Prompt(h)), Advance(Prompt(h)), Advance(Prompt(h))]
  }

  function Bury(cfg: Config, h: Host, n: nat): seq<Event>
    requires 0 < n
  {
    [Exit(n - 1, Prompt(h)), Advance(Prompt(h)), Event.Restart(Patient(cfg, h))]
  }

  function SpawnBoth(h: Host): seq<Event> {
    [Event.Restart(Prompt(h)), Event.Restart(Prompt(h)), Advance(Prompt(h))]
  }

  /** The job of an accepted request. */
  function JobOf(h: Host, q: Request): Job
    requires h.sessions != []
  {
    var s := h.sessions[Last(h)];
    Job(q, Last(h), s.release, ResolvedTarget(q, s.release), s.fence)
  }

  lemma Usurping(cfg: Config, h: Host, q: Request)
    requires Dangerous(cfg, h, q)
    ensures var a := Run(cfg, h, Usurp(h, q));
            TwoTasks(a, |h.sessions|, JobOf(h, q)) && a.durable.link == h.durable.link
  {
    var c := Prompt(h);
    RunThree(cfg, h, Activate(q, c), Advance(c), Advance(c));
    var a := Next(cfg, h, Activate(q, c));
    assert a.up && !a.stopped && a.act.Busy? && a.act.at.Resolving? && a.act.job.prior == Last(h)
      && a.ledger == h.ledger;
    var b := Next(cfg, a, Advance(c));
    assert b.up && !b.stopped && b.act == Busy(JobOf(h, q), Verifying) && b.ledger == h.ledger;
  }

  lemma ExitCondemned(cfg: Config, h: Host, n: nat, job: Job)
    requires 0 < n && TwoTasks(h, n, job)
    ensures Next(cfg, h, Exit(n - 1, Prompt(h))) == Put(h, n - 1, h.sessions[n - 1].(alive := false))
  {
  }

  /** The accepted request's task sees its prior Generation gone. */
  lemma LeaveCondemned(cfg: Config, h: Host, n: nat, job: Job, c: Choice)
    requires 0 < n && TwoTasks(h, n, job) && c.write && h.ledger.clock <= c.now
    ensures var a := Put(h, n - 1, h.sessions[n - 1].(alive := false));
            var b := Next(cfg, a, Advance(c));
            && b.act == Busy(job, Launching) && b.restart == a.restart && b.sessions == a.sessions && b.active.None?
            && b.up && !b.stopped && b.ledger == a.ledger && b.crashes == a.crashes && b.durable.link == a.durable.link
  {
  }

  lemma Burying(cfg: Config, h: Host, n: nat, job: Job)
    requires 0 < n && TwoTasks(h, n, job) && 0 < cfg.maxCrashes
    ensures var r := Run(cfg, h, Bury(cfg, h, n)); BothLaunching(r, n, job) && r.durable.link == h.durable.link
  {
    var c := Prompt(h);
    RunThree(cfg, h, Exit(n - 1, c), Advance(c), Event.Restart(Patient(cfg, h)));
    var a := Next(cfg, h, Exit(n - 1, c));
    ExitCondemned(cfg, h, n, job);
    var b := Next(cfg, a, Advance(c));
    LeaveCondemned(cfg, h, n, job, c);
    hide Next, Run;
    NextRestart(cfg, b, n, Patient(cfg, h));
  }

  /** The dead condemned session is recorded as a crash, and the budget allows another restart. */
  lemma NextRestart(cfg: Config, h: Host, n: nat, c: Choice)
    requires h.up && !h.stopped && h.restart.RestartKilling? && !Alive(h, h.restart.c) && |h.sessions| == n
    requires h.ledger.clock <= c.now && c.write && 0 < cfg.maxCrashes && h.active.None?
    requires forall x :: x in h.crashes ==> x <= c.now - cfg.window
    ensures var r := Next(cfg, h, Event.Restart(c));
            && r.up && !r.stopped && r.sessions == h.sessions && r.restart.Delay? && r.act == h.act
            && r.durable.link == h.durable.link
  {
    NoneWithin(h.crashes, c.now - cfg.window);
    hide Within;
  }

  lemma SpawningBoth(cfg: Config, h: Host, n: nat, job: Job)
    requires BothLaunching(h, n, job)
    ensures var r := Run(cfg, h, SpawnBoth(h)); Alive(r, n) && Alive(r, n + 1)
  {
    var c := Prompt(h);
    RunThree(cfg, h, Event.Restart(c), Event.Restart(c), Advance(c));
  }

  /** From every sound state of a lifetime in which such a request is accepted, there is a continuation
      with two live Generations. */
  lemma UsurpationSplits(cfg: Config, h: Host, q: Request)
    requires Dangerous(cfg, h, q)
    ensures exists events :: var r := Run(cfg, h, [Activate(q, Prompt(h))] + events);
              Alive(r, |h.sessions|) && Alive(r, |h.sessions| + 1)
  {
    hide Run, TwoTasks, BothLaunching;
    var n, job := |h.sessions|, JobOf(h, q);
    var a := Run(cfg, h, Usurp(h, q));
    Usurping(cfg, h, q);
    var b := Run(cfg, a, Bury(cfg, a, n));
    Burying(cfg, a, n, job);
    SpawningBoth(cfg, b, n, job);
    RunAppend(cfg, h, Usurp(h, q), Bury(cfg, a, n));
    RunAppend(cfg, h, Usurp(h, q) + Bury(cfg, a, n), SpawnBoth(b));
    var rest := [Advance(Prompt(h)), Advance(Prompt(h))] + Bury(cfg, a, n) + SpawnBoth(b);
    assert [Activate(q, Prompt(h))] + rest == Usurp(h, q) + Bury(cfg, a, n) + SpawnBoth(b);
  }

  // ---------------------------------------------------------------- a record that disagrees with the link

  /** The restart has read the link and the candidate has announced itself. */
  predicate Raced(h: Host, n: nat, job: Job, was: Release) {
    && h.up && !h.stopped && |h.sessions| == n + 1 && h.restart.RestartLaunching? && h.restart.release == was
    && h.act == Busy(job, Stabilizing(n)) && Alive(h, n)
  }

  /** The candidate is linked and settled, and the restart still holds the old link. */
  predicate Settled(h: Host, job: Job, was: Release) {
    && h.up && !h.stopped && h.restart.RestartLaunching? && h.restart.release == was
    && h.act.Idle? && h.memory == h.durable.activation == Some(Record(job, Committed))
    && h.durable.link == job.target
  }

  /** The restarted Generation of the old release has its own request accepted. */
  predicate Outdated(h: Host, was: Release, link: Release) {
    && h.up && !h.stopped && h.act.Busy? && h.act.at.Resolving? && h.act.job.previous == was
    && h.act.job.q == Again(h.act.job.q.id, was) && h.durable.link == link
    && h.durable.activation.Some? && h.durable.activation.value.id != h.act.job.q.id
  }

  function Again(id: nat, release: Release): Request {
    Request(id, 0, Current, release)
  }

  function Race(h: Host): seq<Event>
    requires h.act.Busy?
  {
    [Event.Restart(Prompt(h)), Advance(Prompt(h)), Advance(Announcing(h, h.act.job.fence + 1))]
  }

  function Settle(h: Host): seq<Event> {
    [Advance(Prompt(h)), Advance(Prompt(h)), Advance(Prompt(h))]
  }

  function Return(h: Host): seq<Event>
    requires h.restart.RestartLaunching? && h.memory.Some?
  {
    [Event.Restart(Prompt(h)), Event.Restart(Announcing(h, h.restart.fence + 1)),
     Activate(Again(h.memory.value.id + 1, h.restart.release), Prompt(h))]
  }

  lemma Racing(cfg: Config, h: Host, n: nat, job: Job)
    requires BothLaunching(h, n, job)
    ensures Raced(Run(cfg, h, Race(h)), n, job, h.durable.link)
  {
    var c := Prompt(h);
    RunThree(cfg, h, Event.Restart(c), Advance(c), Advance(Announcing(h, job.fence + 1)));
    var a := Next(cfg, h, Event.Restart(c));
    assert a == h.(restart := RestartLaunching(h.restart.fence, h.durable.link));
    var b := Next(cfg, a, Advance(c));
    assert b == Spawn(a, job.target).(act := Busy(job, AwaitReady(n)));
  }

  lemma Settling(cfg: Config, h: Host, n: nat, job: Job, was: Release)
    requires Raced(h, n, job, was) && job.target != job.previous
    ensures Settled(Run(cfg, h, Settle(h)), job, was)
  {
    var c := Prompt(h);
    RunThree(cfg, h, Advance(c), Advance(c), Advance(c));
    var a := Next(cfg, h, Advance(c));
    assert a == h.(durable := h.durable.(link := job.target), act := Busy(job, Linked(n)));
    var b := Next(cfg, a, Advance(c));
    assert b == Persist(a, Record(job, Committed), true).(act := Busy(job, Stage.Settling(n)));
  }

  lemma Returning(cfg: Config, h: Host, job: Job, was: Release)
    requires Settled(h, job, was)
    ensures Outdated(Run(cfg, h, Return(h)), was, job.target)
  {
    var n, f := |h.sessions|, h.restart.fence;
    var q := Again(h.memory.value.id + 1, was);
    RunThree(cfg, h, Event.Restart(Prompt(h)), Event.Restart(Announcing(h, f + 1)), Activate(q, Prompt(h)));
    var a := Next(cfg, h, Event.Restart(Prompt(h)));
    assert a == Spawn(h, was).(restart := RestartReady(f, n));
    var b := Next(cfg, a, Event.Restart(Announcing(h, f + 1)));
    assert b == a.(sessions := h.sessions + [Session(was, true, true, false, f + 1)],
                   fences := h.fences + [f + 1], restart := NoRestart);
  }

  /** One more step writes a record that says the old release is linked. */
  lemma Misrecording(cfg: Config, h: Host, was: Release, link: Release)
    requires Outdated(h, was, link) && was != link
    ensures var r := Run(cfg, h, [Advance(Prompt(h))]);
            !Consistent(r.durable.link, r.durable.activation) && !r.marks.relinked
  {
    assert [Advance(Prompt(h))][1..] == [];
    var r := Next(cfg, h, Advance(Prompt(h)));
    assert Run(cfg, r, []) == r;
  }

  /** From every such state some continuation writes a durable record that disagrees with the link,
      although no rollback has changed the link under it. */
  lemma UsurpationMisleads(cfg: Config, h: Host, q: Request)
    requires Dangerous(cfg, h, q)
    ensures exists events :: var r := Run(cfg, h, events);
              !Consistent(r.durable.link, r.durable.activation) && !r.marks.relinked
  {
    var was, release := h.durable.link, h.sessions[Last(h)].release;
    var other := q.(target := Exactly(was + release + 1));
    var n, job := |h.sessions|, JobOf(h, other);
    hide Sound, Run, TwoTasks, BothLaunching, Raced, Settled, Outdated;
    var a := Run(cfg, h, Usurp(h, other));
    Usurping(cfg, h, other);
    var b := Run(cfg, a, Bury(cfg, a, n));
    Burying(cfg, a, n, job);
    RunAppend(cfg, h, Usurp(h, other), Bury(cfg, a, n));
    LaunchedMisleads(cfg, b, n, job);
    var rest :| var r := Run(cfg, b, rest); !Consistent(r.durable.link, r.durable.activation) && !r.marks.relinked;
    RunAppend(cfg, h, Usurp(h, other) + Bury(cfg, a, n), rest);
  }

  lemma LaunchedMisleads(cfg: Config, h: Host, n: nat, job: Job)
    requires BothLaunching(h, n, job) && job.target != job.previous && job.target != h.durable.link
    ensures exists events :: var r := Run(cfg, h, events);
              !Consistent(r.durable.link, r.durable.activation) && !r.marks.relinked
  {
    hide Run, Consistent;
    var was := h.durable.link;
    var a := Run(cfg, h, Race(h));
    Racing(cfg, h, n, job);
    var b := Run(cfg, a, Settle(a));
    Settling(cfg, a, n, job, was);
    var c := Run(cfg, b, Return(b));
    Returning(cfg, b, job, was);
    Misrecording(cfg, c, was, job.target);
    RunAppend(cfg, h, Race(h), Settle(a));
    RunAppend(cfg, h, Race(h) + Settle(a), Return(b));
    RunAppend(cfg, h, Race(h) + Settle(a) + Return(b), [Advance(Prompt(c))]);
  }
}
