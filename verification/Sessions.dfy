/** The runs of all sessions, and the guards that keep at most one run of a session running. */
module Sessions {
  import opened Wrappers
  import opened TaskRun

  type RunId = nat
  type SessionId = nat

  /** Run ids rise with the row order of the table. */
  datatype Runs = Runs(tasks: map<RunId, Task>, session: map<RunId, SessionId>)

  predicate RunningIn(r: Runs, s: SessionId) {
    exists k :: k in r.tasks && k in r.session && r.session[k] == s && r.tasks[k].run.status.Running?
  }

  /** Another run of the same session is running. */
  predicate Busy(r: Runs, id: RunId) {
    exists k :: k in r.tasks && k in r.session && id in r.session && k != id && r.session[k] == r.session[id]
                && r.tasks[k].run.status.Running?
  }

  predicate Latest(r: Runs, s: SessionId, id: RunId) {
    id in r.session && r.session[id] == s && forall k :: k in r.session && r.session[k] == s ==> k <= id
  }

  /** What keeps `claimNextSessionInbox` from starting a run. */
  predicate Occupied(r: Runs, s: SessionId) {
    exists k :: k in r.tasks && k in r.session && r.session[k] == s &&
      (r.tasks[k].run.status in {Running, WaitingInput}
       || (r.tasks[k].run.status in {Blocked, Interrupted} && Latest(r, s, k)))
  }

  /** A run of the session that waits for its queued or running continuation, other than `except`. */
  predicate AwaitsContinuation(r: Runs, s: SessionId, except: Option<RunId>) {
    exists k :: k in r.tasks && k in r.session && r.session[k] == s && except != Some(k)
                && r.tasks[k].run.status in {Blocked, Interrupted} && !NoneActive(r.tasks[k].conts)
  }

  predicate Fresh(r: Runs, id: RunId) {
    id !in r.tasks && forall k :: k in r.session ==> k < id
  }

  /** The claim of an inbox item creates a run; a goal that cannot be attached fails it in the same transaction. */
  function Started(attached: bool): Task {
    if attached then Created()
    else Apply(Created(), Transition({Running}, Failed, RunFailed(OtherReason), Some(1)))
  }

  function Start(r: Runs, s: SessionId, id: RunId, attached: bool): Runs {
    Runs(r.tasks[id := Started(attached)], r.session[id := s])
  }

  function Put(r: Runs, id: RunId, t: Task): Runs {
    r.(tasks := r.tasks[id := t])
  }

  /** The transactions that check before they set a run to running, and every one that does not set it.
      `queued` says that an inbox item to claim exists. */
  datatype Event =
    | ClaimNext(session: SessionId, id: RunId, queued: bool, attached: bool)
    | ClaimNow(session: SessionId, id: RunId, queued: bool, attached: bool)
    | RetryLaunch(id: RunId, inboxStarted: bool)
    | ClaimContinuation(id: RunId, owner: nat, lease: int, now: int)
    | Other(id: RunId, step: Step)

  predicate SetsRunning(t: Task, s: Step) {
    !t.run.status.Running? && Apply(t, s).run.status.Running?
  }

  function RetryStep(r: Runs, id: RunId, inboxStarted: bool): Step
    requires id in r.session
  {
    Retry(inboxStarted && !Busy(r, id) && !AwaitsContinuation(r, r.session[id], Some(id)))
  }

  function Next(r: Runs, e: Event): Runs {
    match e
    case ClaimNext(s, id, queued, attached) =>
      if Fresh(r, id) && queued && !Occupied(r, s) then Start(r, s, id, attached) else r
    case ClaimNow(s, id, queued, attached) =>
      if Fresh(r, id) && queued && !RunningIn(r, s) && !AwaitsContinuation(r, s, None)
      then Start(r, s, id, attached)
      else r
    case RetryLaunch(id, inboxStarted) =>
      if id in r.tasks && id in r.session then Put(r, id, Apply(r.tasks[id], RetryStep(r, id, inboxStarted))) else r
    case ClaimContinuation(id, owner, lease, now) =>
      if id in r.tasks then Put(r, id, Apply(r.tasks[id], Claim(owner, lease, now, Busy(r, id)))) else r
    case Other(id, step) =>
      if id in r.tasks && !SetsRunning(r.tasks[id], step) then Put(r, id, Apply(r.tasks[id], step)) else r
  }

  function History(r: Runs, events: seq<Event>): Runs
    decreases |events|
  {
    if events == [] then r else History(Next(r, events[0]), events[1..])
  }

  predicate IsRunning(r: Runs, k: RunId) {
    k in r.tasks && k in r.session && r.tasks[k].run.status.Running?
  }

  ghost predicate OneRunning(r: Runs) {
    && r.tasks.Keys == r.session.Keys
    && (forall j, k :: IsRunning(r, j) && IsRunning(r, k) && r.session[j] == r.session[k] ==> j == k)
  }

  ghost predicate AllValid(r: Runs) {
    forall k :: k in r.tasks ==> Valid(r.tasks[k])
  }

  lemma PutKeepsOne(r: Runs, id: RunId, t: Task)
    requires OneRunning(r) && id in r.tasks
    requires t.run.status.Running? ==> r.tasks[id].run.status.Running? || !Busy(r, id)
    ensures OneRunning(Put(r, id, t))
  {
    assert Put(r, id, t).tasks.Keys == r.tasks.Keys;
    if t.run.status.Running? && !r.tasks[id].run.status.Running? {
      forall k | k in r.tasks && k != id && r.session[k] == r.session[id] ensures !r.tasks[k].run.status.Running? {
        assert !Busy(r, id);
      }
    }
  }

  lemma StartKeepsOne(r: Runs, s: SessionId, id: RunId, attached: bool)
    requires OneRunning(r) && Fresh(r, id) && !RunningIn(r, s)
    ensures OneRunning(Start(r, s, id, attached))
  {
    hide Started;
    var n := Start(r, s, id, attached);
    assert n.tasks.Keys == n.session.Keys;
    forall k | k in r.tasks && r.session[k] == s ensures !r.tasks[k].run.status.Running? {
      assert !RunningIn(r, s);
    }
  }

  lemma NextKeepsOne(r: Runs, e: Event)
    requires OneRunning(r)
    ensures OneRunning(Next(r, e))
  {
    match e
    case ClaimNext(s, id, queued, attached) =>
      if Fresh(r, id) && queued && !Occupied(r, s) {
        StartKeepsOne(r, s, id, attached);
      }
    case ClaimNow(s, id, queued, attached) =>
      if Fresh(r, id) && queued && !RunningIn(r, s) && !AwaitsContinuation(r, s, None) {
        StartKeepsOne(r, s, id, attached);
      }
    case RetryLaunch(id, inboxStarted) =>
      if id in r.tasks {
        hide Effect, AwaitsContinuation;
        PutKeepsOne(r, id, Apply(r.tasks[id], RetryStep(r, id, inboxStarted)));
      }
    case ClaimContinuation(id, owner, lease, now) =>
      if id in r.tasks {
        hide Effect, ActiveIndex;
        PutKeepsOne(r, id, Apply(r.tasks[id], Claim(owner, lease, now, Busy(r, id))));
      }
    case Other(id, step) =>
      if id in r.tasks && !SetsRunning(r.tasks[id], step) {
        hide Apply;
        PutKeepsOne(r, id, Apply(r.tasks[id], step));
      }
  }

  /** However the guarded claims, launch retries and continuation claims interleave with every
      transaction that does not set a run to running, a session has at most one running run. */
  lemma {:induction false} OneRunningRunPerSession(r: Runs, events: seq<Event>)
    requires OneRunning(r)
    ensures OneRunning(History(r, events))
    decreases |events|
  {
    hide Next, OneRunning;
    if events != [] {
      NextKeepsOne(r, events[0]);
      OneRunningRunPerSession(Next(r, events[0]), events[1..]);
    }
  }

  lemma StartedValid(attached: bool)
    ensures Valid(Started(attached))
  {
    hide Valid;
    CreatedValid();
    StepKeeps(Created(), Transition({Running}, Failed, RunFailed(OtherReason), Some(1)));
  }

  lemma {:induction false} HistoryValid(r: Runs, events: seq<Event>)
    requires AllValid(r)
    ensures AllValid(History(r, events))
    decreases |events|
  {
    hide Apply, Valid, Started, Busy, AwaitsContinuation, Occupied, RunningIn;
    if events != [] {
      var e := events[0];
      match e {
        case ClaimNext(_, _, _, attached) => StartedValid(attached);
        case ClaimNow(_, _, _, attached) => StartedValid(attached);
        case RetryLaunch(id, b) => if id in r.tasks && id in r.session { StepKeeps(r.tasks[id], RetryStep(r, id, b)); }
        case ClaimContinuation(id, owner, lease, now) =>
          if id in r.tasks { StepKeeps(r.tasks[id], Claim(owner, lease, now, Busy(r, id))); }
        case Other(id, step) => if id in r.tasks { StepKeeps(r.tasks[id], step); }
      }
      HistoryValid(Next(r, e), events[1..]);
    }
  }

  // ---------------------------------------------------------------- exactly when a run is started

  /** A run of the session, other than `except`, that is running or waits for its queued or leased continuation. */
  ghost predicate Engaged(r: Runs, s: SessionId, except: Option<RunId>) {
    exists k :: && k in r.tasks && k in r.session && r.session[k] == s && except != Some(k)
                && (r.tasks[k].run.status == Running
                    || (r.tasks[k].run.status in {Blocked, Interrupted}
                        && exists c :: c in r.tasks[k].conts && c.status != Closed))
  }

  /** The newest run of the session is blocked or interrupted, or some run of it is running or waits for input. */
  ghost predicate Unsettled(r: Runs, s: SessionId) {
    || (exists k :: && k in r.tasks && k in r.session && r.session[k] == s
                    && r.tasks[k].run.status in {Running, WaitingInput})
    || (exists k :: && k in r.tasks && k in r.session && r.session[k] == s
                    && r.tasks[k].run.status in {Blocked, Interrupted}
                    && forall j :: j in r.session && r.session[j] == s ==> j <= k)
  }

  /** The rows of a run that a claim started; a goal that cannot be attached leaves it failed. */
  ghost predicate Began(r: Runs, u: Runs, s: SessionId, id: RunId, attached: bool) {
    && id in u.tasks && u.session == r.session[id := s] && u.tasks == r.tasks[id := u.tasks[id]]
    && u.tasks[id].run.status == (if attached then Running else Failed) && u.tasks[id].run.attempt == 1
    && (u.tasks[id].events == [] <==> attached)
  }

  lemma StartBegins(r: Runs, s: SessionId, id: RunId, attached: bool)
    ensures Began(r, Start(r, s, id, attached), s, id, attached)
  {
  }

  /** The next item is claimed exactly for a settled session. */
  lemma ClaimNextExactlyWhen(r: Runs, s: SessionId, id: RunId, queued: bool, attached: bool)
    requires Fresh(r, id)
    ensures var u := Next(r, ClaimNext(s, id, queued, attached));
            if queued && !Unsettled(r, s) then Began(r, u, s, id, attached) else u == r
  {
    StartBegins(r, s, id, attached);
    hide Start, Began;
    assert Occupied(r, s) ==> Unsettled(r, s);
    if exists k :: && k in r.tasks && k in r.session && r.session[k] == s
                   && r.tasks[k].run.status in {Blocked, Interrupted}
                   && forall j :: j in r.session && r.session[j] == s ==> j <= k {
      var k :| && k in r.tasks && k in r.session && r.session[k] == s
               && r.tasks[k].run.status in {Blocked, Interrupted}
               && forall j :: j in r.session && r.session[j] == s ==> j <= k;
      assert Latest(r, s, k);
    }
  }

  /** A given item is claimed at once exactly where no run of the session is engaged. */
  lemma ClaimNowExactlyWhen(r: Runs, s: SessionId, id: RunId, queued: bool, attached: bool)
    requires Fresh(r, id)
    ensures var u := Next(r, ClaimNow(s, id, queued, attached));
            if queued && !Engaged(r, s, None) then Began(r, u, s, id, attached) else u == r
  {
    StartBegins(r, s, id, attached);
    EngagedMeans(r, s, None);
    hide Start, Began, Engaged;
  }

  lemma EngagedMeans(r: Runs, s: SessionId, except: Option<RunId>)
    ensures Engaged(r, s, except)
       <==> || AwaitsContinuation(r, s, except)
            || exists k :: k in r.tasks && k in r.session && r.session[k] == s && except != Some(k)
                           && r.tasks[k].run.status.Running?
  {
    forall k | k in r.tasks
      ensures NoneActive(r.tasks[k].conts) <==> forall c :: c in r.tasks[k].conts ==> c.status == Closed
    {
      var conts := r.tasks[k].conts;
      if NoneActive(conts) {
        forall c | c in conts ensures c.status == Closed {
          var i :| 0 <= i < |conts| && conts[i] == c;
        }
      }
    }
    hide NoneActive;
  }

  /** A launch is retried for its run exactly where the item has started and no other run of the session is
      engaged; what the run itself must be is said of the transaction. */
  lemma RetryExactlyWhen(r: Runs, id: RunId, inboxStarted: bool)
    requires id in r.tasks && id in r.session
    ensures var u := Next(r, RetryLaunch(id, inboxStarted));
            u == Put(r, id, Apply(r.tasks[id], Retry(inboxStarted && !Engaged(r, r.session[id], Some(id)))))
  {
    EngagedMeans(r, r.session[id], Some(id));
    hide Apply, Engaged, AwaitsContinuation;
  }

  // ---------------------------------------------------------------- the transactions without a check

  /** A transaction that sets a run to running keeps the property if and only if no other run of its
      session is running. */
  lemma SettingRunningExactlyWhen(r: Runs, id: RunId, s: Step)
    requires OneRunning(r) && id in r.tasks && SetsRunning(r.tasks[id], s)
    ensures OneRunning(Put(r, id, Apply(r.tasks[id], s))) <==> !Busy(r, id)
  {
    hide Apply;
    var t := Apply(r.tasks[id], s);
    if Busy(r, id) {
      var k :| k in r.tasks && k in r.session && k != id && r.session[k] == r.session[id]
        && r.tasks[k].run.status.Running?;
      assert IsRunning(Put(r, id, t), k) && IsRunning(Put(r, id, t), id);
    } else {
      PutKeepsOne(r, id, t);
    }
  }

  /** `resumeRun` has no such check: where it resumes a run, the property survives exactly this condition. */
  lemma ResumeExactlyWhen(r: Runs, id: RunId)
    requires OneRunning(r) && id in r.tasks && Enabled(r.tasks[id], Resume)
    ensures OneRunning(Put(r, id, Apply(r.tasks[id], Resume))) <==> !Busy(r, id)
  {
    ResumeSetsRunning(r.tasks[id]);
    SettingRunningExactlyWhen(r, id, Resume);
  }

  lemma ResumeSetsRunning(t: Task)
    requires Enabled(t, Resume)
    ensures SetsRunning(t, Resume)
  {
    hide TimedOut, PendingInput, SubmittedFor;
  }

  /** A transition to running of a run that is not running. */
  lemma TransitionExactlyWhen(r: Runs, id: RunId, expected: set<RunStatus>, kind: EventKind, attempt: Option<nat>)
    requires OneRunning(r) && id in r.tasks && !r.tasks[id].run.status.Running?
    requires Enabled(r.tasks[id], Transition(expected, Running, kind, attempt))
    ensures OneRunning(Put(r, id, Apply(r.tasks[id], Transition(expected, Running, kind, attempt)))) <==> !Busy(r, id)
  {
    var s := Transition(expected, Running, kind, attempt);
    assert SetsRunning(r.tasks[id], s);
    SettingRunningExactlyWhen(r, id, s);
  }

  /** A bare `createRun`. */
  lemma CreateExactlyWhen(r: Runs, s: SessionId, id: RunId)
    requires OneRunning(r) && Fresh(r, id)
    ensures OneRunning(Start(r, s, id, true)) <==> !RunningIn(r, s)
  {
    hide Created;
    assert Created().run.status.Running? by { CreatedRuns(); }
    if RunningIn(r, s) {
      var k :| k in r.tasks && k in r.session && r.session[k] == s && r.tasks[k].run.status.Running?;
      assert IsRunning(Start(r, s, id, true), k) && IsRunning(Start(r, s, id, true), id);
    } else {
      StartKeepsOne(r, s, id, true);
    }
  }

  lemma CreatedRuns()
    ensures Created().run.status.Running?
  {
  }

  /** A run blocked in its first attempt. */
  function BlockedRun(): Task {
    Apply(Created(), Transition({Running}, Blocked, RunBlocked, None))
  }

  lemma BlockedRunResumes()
    ensures Valid(BlockedRun()) && Valid(Created()) && Created().run.status.Running?
    ensures BlockedRun().run.status.Blocked? && Enabled(BlockedRun(), Resume) && NoneActive(BlockedRun().conts)
  {
    CreatedValid();
    StepKeeps(Created(), Transition({Running}, Blocked, RunBlocked, None));
    hide Valid;
  }

  /** A blocked run and, beside it in the same session, a running one. */
  function TwoRuns(s: SessionId): Runs {
    Runs(map[1 := BlockedRun(), 2 := Created()], map[1 := s, 2 := s])
  }

  /** The guarded transactions reach it: claim a run, block it, claim another one now. */
  function ReachTwoRuns(s: SessionId): seq<Event> {
    [ClaimNext(s, 1, true, true), Other(1, Transition({Running}, Blocked, RunBlocked, None)),
     ClaimNow(s, 2, true, true)]
  }

  function OneBlocked(s: SessionId): Runs {
    Runs(map[1 := BlockedRun()], map[1 := s])
  }

  function OneCreated(s: SessionId): Runs {
    Runs(map[1 := Created()], map[1 := s])
  }

  lemma FirstClaimed(s: SessionId)
    ensures Next(Runs(map[], map[]), ReachTwoRuns(s)[0]) == OneCreated(s)
  {
    hide Apply, Created;
  }

  lemma FirstBlocked(s: SessionId)
    ensures Next(OneCreated(s), ReachTwoRuns(s)[1]) == OneBlocked(s)
  {
    BlockedRunResumes();
    hide Apply, Created, Valid, Enabled;
    assert OneCreated(s).tasks[1 := BlockedRun()] == OneBlocked(s).tasks;
  }

  lemma SecondClaimed(s: SessionId)
    ensures Next(OneBlocked(s), ReachTwoRuns(s)[2]) == TwoRuns(s)
  {
    BlockedRunResumes();
    hide Apply, Created, BlockedRun, Valid, Enabled;
  }

  lemma TwoRunsReached(s: SessionId)
    ensures History(Runs(map[], map[]), ReachTwoRuns(s)) == TwoRuns(s)
  {
    hide Next;
    FirstClaimed(s);
    FirstBlocked(s);
    SecondClaimed(s);
    var a, b, c := ReachTwoRuns(s)[0], ReachTwoRuns(s)[1], ReachTwoRuns(s)[2];
    var r0 := Runs(map[], map[]);
    assert [a, b, c][1..] == [b, c] && [b, c][1..] == [c] && [c][1..] == [];
    assert History(OneBlocked(s), [c]) == History(TwoRuns(s), []);
    assert History(Next(r0, a), [b, c]) == History(OneBlocked(s), [c]);
  }

  /** From that reachable state, with one running run, `resumeRun` leaves two. */
  lemma ResumeBreaksIt(s: SessionId)
    ensures var r := History(Runs(map[], map[]), ReachTwoRuns(s));
            OneRunning(r) && 1 in r.tasks && Enabled(r.tasks[1], Resume)
              && !OneRunning(Put(r, 1, Apply(r.tasks[1], Resume)))
  {
    hide Apply, Valid, BlockedRun, Created, History, Enabled;
    TwoRunsReached(s);
    BlockedRunResumes();
    var r := TwoRuns(s);
    assert IsRunning(r, 2) && !IsRunning(r, 1);
    assert Busy(r, 1);
    ResumeExactlyWhen(r, 1);
  }
}
