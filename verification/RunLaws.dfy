/** What the transactions of a run do to its rows, column by column, and what that means for a whole history:
    which moves a status can make, and who wins when two callers expect the same status. */
module RunLaws {
  import opened Wrappers
  import opened TaskRun

  /** A new run is running in its first attempt, with nothing logged. */
  lemma CreatedRows()
    ensures Created() == Task(RunRow(Running, 1, 0), map[1 := AttemptRow(ByInitial, Running, true, 1, 0)],
                              [AuditRow(1, None, Running, ByInitial, ByInitial, 1, 0)], [], [], [])
  {
  }

  // ---------------------------------------------------------------- one compare-and-set

  /** The rows after `transitionRun` went through. */
  predicate Transitioned(t: Task, u: Task, next: RunStatus, kind: EventKind) {
    && u.run == RunRow(next, t.run.attempt, t.run.lastSeq + 1)
    && u.events == t.events + [EventRow(t.run.lastSeq + 1, t.run.attempt, kind)]
    && u.conts == t.conts && u.inputs == t.inputs && |u.audit| == |t.audit| + 1
    && u.audit[|t.audit|].scenario == (if next == Running then ByRecovery else ByTerminal)
    && t.run.attempt in u.attempts && u.attempts[t.run.attempt].status == next
    && (u.attempts[t.run.attempt].active <==> next == Running)
    && (forall o :: o in t.attempts && o != t.run.attempt ==> o in u.attempts && u.attempts[o] == t.attempts[o])
  }

  lemma TransitionsExactlyWhen(t: Task, expected: set<RunStatus>, next: RunStatus, kind: EventKind,
                               attempt: Option<nat>)
    ensures var u := Apply(t, Transition(expected, next, kind, attempt));
            if t.run.status in expected && (attempt == None || attempt == Some(t.run.attempt))
            then Transitioned(t, u, next, kind) else u == t
  {
  }

  // ---------------------------------------------------------------- the moves of a status

  /** The only moves a run can make, whatever else the transaction writes. */
  predicate Moves(t: Task, s: Step, u: Task) {
    var from, to := t.run.status, u.run.status;
    match s
    case Transition(expected, next, _, attempt) =>
      from in expected && to == next && u.run.attempt == t.run.attempt && attempt in {None, Some(t.run.attempt)}
    case RequestInput => from == Running && to == WaitingInput && u.run.attempt == t.run.attempt
    case Resume => from in {Interrupted, Blocked, Failed, WaitingInput} && Restarts(t, u)
    case Retry(launchable) => from == Failed && launchable && Restarts(t, u)
    case Interrupt => from == Running && to == Interrupted && u.run.attempt == t.run.attempt
    case Claim(_, _, _, busy) => from == Blocked && !busy && Restarts(t, u)
    case Release(_, _) => from in {Running, Interrupted} && to == Blocked && u.run.attempt == t.run.attempt
    case ReleaseAll(_) => from in {Running, Interrupted} && to == Blocked && u.run.attempt == t.run.attempt
    case RecoverLease(_) => from in {Running, Interrupted} && to == Blocked && u.run.attempt == t.run.attempt
    case Handoff(_) =>
      from in {Running, Interrupted, Completed, Failed} && to == Blocked && u.run.attempt == t.run.attempt
    case QueueSafe(safe, _) => from == Interrupted && safe && to == Blocked && u.run.attempt == t.run.attempt
    case _ => false
  }

  /** The next attempt runs. */
  predicate Restarts(t: Task, u: Task) {
    u.run.status == Running && u.run.attempt == t.run.attempt + 1
  }

  lemma StatusMoves(t: Task, s: Step)
    ensures var u := Apply(t, s);
            (u.run.status, u.run.attempt) == (t.run.status, t.run.attempt) || Moves(t, s, u)
  {
    hide ActiveIndex, SafeCount, PendingInput, SubmittedFor, TimedOut, LaunchRetryable, WasInterrupted, HandedOff,
      Answered, Project;
    ProjectKeepsRun();
  }

  lemma ProjectKeepsRun()
    ensures forall t: Task, o: nat, trigger: Cause, status: Status, scenario: Cause {:trigger Project(t, o, trigger,
              status, scenario)} :: Project(t, o, trigger, status, scenario).run == t.run
  {
  }

  predicate Leaves(s: Step, status: RunStatus) {
    (s.Transition? && status in s.expected) || (s.Handoff? && status == Completed)
  }

  /** A cancelled run stays cancelled in its attempt, and a completed one too unless a handoff blocks it, until a
      transition expects that very status. */
  lemma {:induction false} EndedStaysEnded(t: Task, steps: seq<Step>)
    requires t.run.status in {Cancelled, Completed}
    requires forall k :: 0 <= k < |steps| ==> !Leaves(steps[k], t.run.status)
    ensures var u := Replay(t, steps); (u.run.status, u.run.attempt) == (t.run.status, t.run.attempt)
    decreases |steps|
  {
    hide Apply;
    if steps != [] {
      StatusMoves(t, steps[0]);
      EndedStaysEnded(Apply(t, steps[0]), steps[1..]);
    }
  }

  // ---------------------------------------------------------------- two callers, one status

  /** Step `k` brings the status back into the set. */
  predicate Returns(t: Task, steps: seq<Step>, expected: set<RunStatus>, k: nat) {
    && k < |steps| && Replay(t, steps[..k]).run.status !in expected
    && Apply(Replay(t, steps[..k]), steps[k]).run.status in expected
  }

  lemma {:induction false} ReturnedSomewhere(t: Task, steps: seq<Step>, expected: set<RunStatus>) returns (k: nat)
    requires t.run.status !in expected && Replay(t, steps).run.status in expected
    ensures Returns(t, steps, expected, k)
    decreases |steps|
  {
    hide Apply;
    var next := Apply(t, steps[0]);
    if next.run.status in expected {
      k := 0;
      assert steps[..0] == [];
    } else {
      var rest := ReturnedSomewhere(next, steps[1..], expected);
      k := rest + 1;
      assert steps[..k][1..] == steps[1..][..rest] && steps[..k][0] == steps[0] && steps[k] == steps[1..][rest];
    }
  }

  /** Of two transitions that expect the same statuses, where the first leaves them, the second changes nothing
      unless some step in between brought the status back. */
  lemma FirstTransitionWins(t: Task, first: Step, steps: seq<Step>, second: Step)
    requires first.Transition? && second.Transition? && first.expected == second.expected
    requires t.run.status in first.expected && first.next !in first.expected
    requires first.expectedAttempt in {None, Some(t.run.attempt)}
    ensures var u := Apply(t, first);
            var v := Replay(u, steps);
            Apply(v, second) == v || exists k :: Returns(u, steps, first.expected, k)
  {
    TransitionsExactlyWhen(t, first.expected, first.next, first.kind, first.expectedAttempt);
    var u := Apply(t, first);
    var v := Replay(u, steps);
    TransitionsExactlyWhen(v, second.expected, second.next, second.kind, second.expectedAttempt);
    hide Apply, Replay;
    if v.run.status in first.expected {
      var k := ReturnedSomewhere(u, steps, first.expected);
    }
  }

  // ---------------------------------------------------------------- input

  /** A request for input is recorded and waited for exactly by a running run without a pending one. */
  lemma AsksExactlyWhen(t: Task)
    ensures var u := Apply(t, RequestInput);
            if t.run.status == Running && forall i :: 0 <= i < |t.inputs| ==> !t.inputs[i].pending
            then u.run.status == WaitingInput && u.inputs == t.inputs + [InputRow(t.run.attempt, true)]
              && u.events == t.events + [EventRow(t.run.lastSeq + 1, t.run.attempt, WaitingForInput)]
            else u == t
  {
  }

  // ---------------------------------------------------------------- the next attempt

  /** The rows after the next attempt was started for this reason. */
  predicate Started(t: Task, u: Task, trigger: Cause) {
    && Restarts(t, u) && u.run.attempt in u.attempts
    && u.attempts[u.run.attempt] == AttemptRow(trigger, Running, true, 1, u.run.lastSeq)
    && u.inputs == t.inputs && u.audit != [] && u.audit[|u.audit| - 1].scenario == trigger
  }

  /** A run is resumed exactly from interrupted or blocked, from waiting once nothing is pending, and from a
      failure by timeout of its current attempt; the attempt is due to input if some was submitted in the last. */
  lemma ResumesExactlyWhen(t: Task)
    requires Coherent(t)
    ensures var u := Apply(t, Resume);
            if || t.run.status == Interrupted || t.run.status == Blocked
               || (t.run.status == WaitingInput && forall i :: 0 <= i < |t.inputs| ==> !t.inputs[i].pending)
               || (t.run.status == Failed
                   && exists e :: e in t.events && e.ordinal == t.run.attempt && e.kind == RunFailed(Timeout))
            then Started(t, u, if exists r :: r in t.inputs && !r.pending && r.attempt == t.run.attempt
                         then ByInput else ByResume)
              && u.events == t.events && u.conts == t.conts
            else u == t
  {
    if t.run.status.Failed? && exists e :: e in t.events && e.ordinal == t.run.attempt && e.kind == RunFailed(Timeout) {
      var i :| 0 <= i < |t.events| && t.events[i].ordinal == t.run.attempt && t.events[i].kind == RunFailed(Timeout);
      assert TimedOut(t);
    }
    assert SubmittedFor(t, t.run.attempt) <==> exists r :: r in t.inputs && !r.pending && r.attempt == t.run.attempt;
    hide SubmittedFor;
  }

  /** A launch is retried exactly when the run failed and its newest failure is a retryable launch. */
  lemma RetriesExactlyWhen(t: Task, launchable: bool)
    requires Coherent(t)
    ensures var u := Apply(t, Retry(launchable));
            if launchable && t.run.status == Failed && NewestFailureIs(t.events, Launch(true))
            then Started(t, u, ByRetry) && u.events == t.events && u.conts == t.conts else u == t
  {
    assert NewestFailureIs(t.events, Launch(true)) <==> LaunchRetryable(t.events) by { NewestIsThere(t.events); }
    hide NewestFailureIs, LaunchRetryable;
  }

  /** Read from the end of the log. */
  predicate NewestFailureIs(events: seq<EventRow>, reason: FailReason) {
    events != [] &&
    var last := events[|events| - 1].kind;
    if last.RunFailed? then last.reason == reason else NewestFailureIs(events[..|events| - 1], reason)
  }

  lemma {:induction false} NewestIsThere(events: seq<EventRow>)
    ensures NewestFailureIs(events, Launch(true)) <==> LaunchRetryable(events)
  {
    if events != [] {
      var n := |events| - 1;
      NewestIsThere(events[..n]);
      if LaunchRetryable(events[..n]) {
        var i :| 0 <= i < n && events[..n][i].kind == RunFailed(Launch(true))
          && forall j :: i < j < n ==> !events[..n][j].kind.RunFailed?;
        assert forall j :: i < j < n ==> events[..n][j] == events[j];
        assert events[i].kind == RunFailed(Launch(true));
      }
      if LaunchRetryable(events) && !events[n].kind.RunFailed? {
        var i :| 0 <= i < |events| && events[i].kind == RunFailed(Launch(true))
          && forall j :: i < j < |events| ==> !events[j].kind.RunFailed?;
        assert i < n && events[..n][i] == events[i];
      }
      if events[n].kind == RunFailed(Launch(true)) { assert events[n].kind == RunFailed(Launch(true)); }
    }
  }

  // ---------------------------------------------------------------- leases

  /** Continuation `i` is queued and due. */
  predicate Due(t: Task, i: nat, now: int) {
    i < |t.conts| && t.conts[i].status == Queued && t.conts[i].notBefore <= now
  }

  /** A claim goes through exactly for a blocked run with a due continuation in a session that is not busy: the
      continuation is leased to the owner from now on, and the next attempt runs. */
  lemma ClaimsExactlyWhen(t: Task, owner: nat, lease: int, now: int, busy: bool)
    requires Valid(t)
    ensures var u := Apply(t, Claim(owner, lease, now, busy));
            if t.run.status == Blocked && !busy && exists i: nat :: Due(t, i, now)
            then exists i: nat :: && Due(t, i, now) && Started(t, u, ByContinuation)
                             && u.conts == t.conts[i := Continuation(t.conts[i].ordinal, Leased, t.conts[i].notBefore,
                                                                     owner, Some(now + lease))]
                             && u.events == t.events + [EventRow(t.run.lastSeq + 1, t.run.attempt + 1,
                                                                 ContinuationStarted(i))]
            else u == t
  {
    ClaimApplies(t, owner, lease, now, busy);
    assert OneActive(t.conts);
    hide Valid, Apply, Claimed, Started;
    var k := ActiveIndex(t.conts);
    forall i: nat | Due(t, i, now) ensures i == k {
      assert Active(t.conts[i]);
    }
    hide OneActive;
    assert Claimable(t, now, busy) <==> t.run.status == Blocked && !busy && Due(t, k, now);
    if Claimable(t, now, busy) {
      ClaimWrites(t, k, owner, now + lease);
    }
  }

  lemma ClaimApplies(t: Task, owner: nat, lease: int, now: int, busy: bool)
    ensures Apply(t, Claim(owner, lease, now, busy))
         == if Claimable(t, now, busy) then Claimed(t, ActiveIndex(t.conts), owner, now + lease) else t
  {
    hide Claimed, ActiveIndex;
  }

  lemma ClaimWrites(t: Task, i: nat, owner: nat, until: int)
    requires Valid(t) && i < |t.conts|
    ensures var u := Claimed(t, i, owner, until);
            && Started(t, u, ByContinuation)
            && u.conts == t.conts[i := Continuation(t.conts[i].ordinal, Leased, t.conts[i].notBefore, owner,
                                                    Some(until))]
            && u.events == t.events + [EventRow(t.run.lastSeq + 1, t.run.attempt + 1, ContinuationStarted(i))]
  {
    assert t.run.attempt + 1 !in t.attempts by { assert Coherent(t); }
    hide Valid;
  }

  /** A continuation is queued exactly where none is active. */
  lemma QueuesOneExactlyWhen(t: Task, notBefore: int)
    ensures var u := Apply(t, Step.QueueContinuation(notBefore));
            if forall c :: c in t.conts ==> c.status == Closed
            then u == t.(conts := t.conts + [Continuation(|t.conts| + 1, Queued, if notBefore > 0 then notBefore else 0,
                                                          0, None)])
            else u == t
  {
    assert NoneActive(t.conts) <==> forall c :: c in t.conts ==> c.status == Closed;
    hide NoneActive;
  }

  /** A continuation is closed exactly by its owner while it is queued or leased. */
  lemma ClosesExactlyWhen(t: Task, i: nat, owner: nat)
    ensures var u := Apply(t, Step.CloseContinuation(i, owner));
            if i < |t.conts| && t.conts[i].status != Closed && t.conts[i].owner == owner
            then u == t.(conts := t.conts[i := Continuation(t.conts[i].ordinal, Closed, t.conts[i].notBefore, 0, None)])
            else u == t
  {
  }

  /** Cancelling closes exactly the queued continuations. */
  lemma CancelsExactlyWhen(t: Task)
    requires Valid(t)
    ensures var u := Apply(t, CancelQueued);
            u == t.(conts := u.conts) && |u.conts| == |t.conts|
            && forall k :: 0 <= k < |t.conts| ==>
                 u.conts[k] == if t.conts[k].status == Queued then t.conts[k].(status := Closed) else t.conts[k]
  {
    assert OneActive(t.conts);
    hide Valid;
    forall k | 0 <= k < |t.conts| && t.conts[k].status == Queued ensures k == ActiveIndex(t.conts) {
      assert Active(t.conts[k]);
    }
  }

  /** A renewal moves the deadline exactly of a lease its owner holds and that has not run out. */
  lemma RenewsExactlyWhen(t: Task, i: nat, owner: nat, lease: int, now: int)
    ensures var u := Apply(t, Renew(i, owner, lease, now));
            if && i < |t.conts| && t.conts[i].status == Leased && t.conts[i].owner == owner
               && t.conts[i].leaseUntil.Some? && now < t.conts[i].leaseUntil.value
            then u == t.(conts := t.conts[i := t.conts[i].(leaseUntil := Some(now + lease))])
            else u == t
  {
  }

  /** The rows after lease `i` was given back. */
  predicate GivenBack(t: Task, u: Task, i: nat) {
    && i < |t.conts| && u.conts == t.conts[i := Continuation(t.conts[i].ordinal, Queued, t.conts[i].notBefore, 0, None)]
    && u.run.status == (if t.run.status in {Running, Interrupted} then Blocked else t.run.status)
    && u.run.attempt == t.run.attempt && u.events == t.events && u.inputs == t.inputs
    && t.run.attempt in u.attempts && u.attempts[t.run.attempt].status == Blocked
  }

  lemma ReleasesExactlyWhen(t: Task, i: nat, owner: nat)
    ensures var u := Apply(t, Release(i, owner));
            if i < |t.conts| && t.conts[i].status == Leased && t.conts[i].owner == owner then GivenBack(t, u, i)
            else u == t
  {
  }

  /** Recovery takes exactly a lease whose deadline has come, or that has none. */
  lemma RecoversExactlyWhen(t: Task, now: int)
    requires Valid(t)
    ensures var u := Apply(t, RecoverLease(now));
            (exists i :: && 0 <= i < |t.conts| && t.conts[i].status == Leased
                         && (t.conts[i].leaseUntil == None || t.conts[i].leaseUntil.value <= now)
                         && GivenBack(t, u, i))
            || (u == t && forall i :: 0 <= i < |t.conts| && t.conts[i].status == Leased ==>
                            t.conts[i].leaseUntil.Some? && now < t.conts[i].leaseUntil.value)
  {
    assert OneActive(t.conts);
    hide Valid, GivenBack;
    var k := ActiveIndex(t.conts);
    forall i | 0 <= i < |t.conts| && t.conts[i].status == Leased ensures i == k {
      assert Active(t.conts[i]);
    }
    if Expired(t, k, now) { RequeueGivesBack(t, k); }
  }

  lemma RequeueGivesBack(t: Task, i: nat)
    requires i < |t.conts|
    ensures GivenBack(t, Requeue(t, i), i)
  {
  }

  // ---------------------------------------------------------------- handoffs and automatic recovery

  /** A handoff is prepared exactly once per request, and not for a run that waits for input or was cancelled:
      the active continuation, or a new one, and one event that names it; the run is blocked. */
  lemma HandsOffExactlyWhen(t: Task, request: nat)
    ensures var u := Apply(t, Handoff(request));
            if t.run.status in {WaitingInput, Cancelled}
               || exists e :: e in t.events && e.kind.HandoffPrepared? && e.kind.request == request
            then u == t
            else && u.run.status == Blocked && u.run.attempt == t.run.attempt
                 && exists i: nat :: && i < |u.conts| && Active(u.conts[i])
                                     && (u.conts == t.conts
                                         || (NoneActive(t.conts)
                                             && u.conts == t.conts + [Continuation(|t.conts| + 1, Queued, 0, 0, None)]))
                                     && u.events == t.events + [EventRow(t.run.lastSeq + 1, t.run.attempt,
                                                                         HandoffPrepared(request, i))]
  {
    assert HandedOff(t, request) <==> exists e :: e in t.events && e.kind.HandoffPrepared? && e.kind.request == request;
    hide HandedOff;
    if Enabled(t, Handoff(request)) {
      var c := if NoneActive(t.conts) then Enqueue(t, 0) else t;
      if NoneActive(t.conts) { assert Active(c.conts[|t.conts|]); }
      assert ActiveIndex(c.conts) < |c.conts|;
    }
  }

  /** An interrupted run that was interrupted by a restart, is proven safe, has no active continuation and was
      recovered fewer than `max` times gets one continuation and waits for it; nothing else does. */
  lemma QueuesExactlyWhen(t: Task, safe: bool, max: nat)
    ensures var u := Apply(t, QueueSafe(safe, max));
            if && t.run.status == Interrupted && safe && NoneActive(t.conts)
               && (exists e :: e in t.events && e.kind == RestartInterruption)
               && |Recoveries(t.events)| < max
            then && u.run == RunRow(Blocked, t.run.attempt, t.run.lastSeq + 1)
                 && u.conts == t.conts + [Continuation(|t.conts| + 1, Queued, 0, 0, None)]
                 && u.events == t.events + [EventRow(t.run.lastSeq + 1, t.run.attempt, ContinuationQueued(true))]
            else u == t
  {
    RecoveriesCount(t.events);
    assert WasInterrupted(t) <==> exists e :: e in t.events && e.kind == RestartInterruption;
    hide WasInterrupted, SafeCount;
  }

  /** Where the log records an automatic recovery. */
  function Recoveries(events: seq<EventRow>): set<int> {
    set i | 0 <= i < |events| && events[i].kind == ContinuationQueued(true)
  }

  lemma {:induction false} RecoveriesCount(events: seq<EventRow>)
    ensures |Recoveries(events)| == SafeCount(events)
  {
    if events != [] {
      var n := |events| - 1;
      RecoveriesCount(events[..n]);
      assert Recoveries(events) == Recoveries(events[..n])
                                   + if events[n].kind == ContinuationQueued(true) then {n} else {};
    }
  }
}
