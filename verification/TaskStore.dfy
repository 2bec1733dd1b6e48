/** The store that runs the transactions of `TaskRun`, statement by statement. Every row belongs to one
    run, so the rows of all tables are kept together by run. */
module TaskStore {
  import opened Wrappers
  import opened TaskRun
  import RunLaws
  import Sessions
  import CrashRecovery

  type RunId = nat
  type SessionId = nat

  // ---------------------------------------------------------------- the unaudited update

  /** What starting an attempt does to the other attempts of its run, without an audit row. */
  function Supersede(attempts: map<nat, AttemptRow>, ordinal: nat): map<nat, AttemptRow> {
    map o | o in attempts ::
      if o != ordinal && attempts[o].active
      then attempts[o].(active := false, status := if attempts[o].status.Running? then Superseded
                        else attempts[o].status)
      else attempts[o]
  }

  /** In a reachable state it never changes a row: a run that is not running has no active attempt, and
      a running one is only projected on its own attempt. */
  lemma SupersedeIsNoOp(t: Task)
    requires Coherent(t)
    ensures Supersede(t.attempts, t.run.attempt) == t.attempts
    ensures !t.run.status.Running? ==> forall o :: Supersede(t.attempts, o) == t.attempts
  {
  }

  /** The attempt row that `projectAttempt` inserts, or leaves after its update. */
  method WrittenRow(existing: Option<AttemptRow>, trigger: Cause, status: Status, eventSeq: nat)
    returns (row: AttemptRow)
    ensures row == Projected(existing, trigger, status, eventSeq)
  {
    var active := status.Running?;
    if existing.None? { return AttemptRow(trigger, status, active, 1, eventSeq); }
    var version := existing.value.version + 1;
    row := existing.value.(status := status, active := active, version := version, eventSeq := eventSeq);
  }

  /** `projectAttempt`, with the update of the other attempts it makes when the new status is running. */
  method ProjectAttempt(t: Task, ordinal: nat, trigger: Cause, status: Status, scenario: Cause) returns (u: Task)
    requires status.Running? ==> Supersede(t.attempts, ordinal) == t.attempts
    ensures u == Project(t, ordinal, trigger, status, scenario)
  {
    hide Supersede, Projected;
    var existing := Lookup(t.attempts, ordinal);
    var attempts := t.attempts;
    if status.Running? { attempts := Supersede(attempts, ordinal); }
    var row := WrittenRow(existing, trigger, status, t.run.lastSeq);
    attempts := attempts[ordinal := row];
    var audit := AuditRow(ordinal, StatusOf(existing), status, row.trigger, scenario, row.version, t.run.lastSeq);
    u := t.(attempts := attempts, audit := t.audit + [audit]);
  }

  /** The statements that start the next attempt of a run that is not running. */
  method StartAttempt(t: Task, trigger: Cause) returns (u: Task)
    requires !t.run.status.Running? && Coherent(t.(run := t.run.(lastSeq := 0)))
    ensures u == Advance(t, trigger)
  {
    SupersedeIsNoOp(t.(run := t.run.(lastSeq := 0)));
    hide Coherent, Project, Supersede;
    u := t.(run := t.run.(status := Running, attempt := t.run.attempt + 1));
    u := ProjectAttempt(u, u.run.attempt, trigger, Running, trigger);
  }

  // ---------------------------------------------------------------- continuations of one run

  /** One more than the highest ordinal. */
  method NextOrdinal(conts: seq<Continuation>) returns (n: nat)
    requires OneActive(conts)
    ensures n == |conts| + 1
  {
    n := 0;
    for i := 0 to |conts|
      invariant n == i
    {
      if conts[i].ordinal > n { n := conts[i].ordinal; }
    }
    n := n + 1;
  }

  method InsertContinuation(t: Task, notBefore: int) returns (u: Task)
    requires OneActive(t.conts)
    ensures u == Enqueue(t, notBefore)
  {
    var n := NextOrdinal(t.conts);
    u := t.(conts := t.conts + [Continuation(n, Queued, notBefore, 0, None)]);
  }

  /** The due queued continuation with the lowest ordinal, if there is one. */
  method NextDue(conts: seq<Continuation>, now: int) returns (i: nat)
    requires OneActive(conts)
    ensures i <= |conts|
    ensures i < |conts| <==>
              var k := ActiveIndex(conts); k < |conts| && conts[k].status.Queued? && conts[k].notBefore <= now
    ensures i < |conts| ==> i == ActiveIndex(conts)
  {
    i := |conts|;
    for j := 0 to |conts|
      invariant i < j || i == |conts|
      invariant i < |conts| ==> conts[i].status.Queued? && conts[i].notBefore <= now
      invariant i == |conts| ==> forall k :: 0 <= k < j ==> !(conts[k].status.Queued? && conts[k].notBefore <= now)
    {
      if conts[j].status.Queued? && conts[j].notBefore <= now && (i == |conts| || conts[j].ordinal < conts[i].ordinal) {
        i := j;
      }
    }
  }

  /** The statements that release and recovery of a lease share. */
  method GiveBack(t: Task, i: nat) returns (u: Task)
    requires i < |t.conts|
    ensures u == Requeue(t, i)
  {
    u := t.(conts := t.conts[i := t.conts[i].(status := Queued, owner := 0, leaseUntil := None)]);
    if u.run.status in {Running, Interrupted, Blocked} { u := u.(run := u.run.(status := Blocked)); }
    u := ProjectAttempt(u, u.run.attempt, ByRecovery, Blocked, ByRecovery);
  }

  /** `transitionRun` on the rows of one run. */
  method TransitionRow(t: Task, expected: set<RunStatus>, next: RunStatus, kind: EventKind,
                       expectedAttempt: Option<nat>)
    returns (u: Task, done: bool)
    requires Coherent(t)
    ensures u == Apply(t, Transition(expected, next, kind, expectedAttempt))
    ensures done <==> Enabled(t, Transition(expected, next, kind, expectedAttempt))
  {
    SupersedeIsNoOp(t);
    hide Coherent, Project, Supersede;
    if t.run.status !in expected || (expectedAttempt.Some? && t.run.attempt != expectedAttempt.value) {
      return t, false;
    }
    u := t.(events := t.events + [EventRow(t.run.lastSeq + 1, t.run.attempt, kind)]);
    u := u.(run := u.run.(status := next, lastSeq := u.run.lastSeq + 1));
    u := ProjectAttempt(u, u.run.attempt, ByRecovery, next, if next.Running? then ByRecovery else ByTerminal);
    done := true;
  }

  method QueueRow(t: Task, notBefore: int) returns (u: Task, done: bool)
    requires OneActive(t.conts)
    ensures u == Apply(t, Step.QueueContinuation(notBefore))
      && (done <==> Enabled(t, Step.QueueContinuation(notBefore)))
  {
    if !NoneActive(t.conts) { return t, false; }
    u := InsertContinuation(t, if notBefore < 0 then 0 else notBefore);
    done := true;
  }

  /** `resumeRun` on the rows of one run. */
  method ResumeRow(t: Task) returns (u: Task, done: bool)
    requires Coherent(t)
    ensures u == Apply(t, Resume) && (done <==> Enabled(t, Resume))
  {
    assert Coherent(t.(run := t.run.(lastSeq := 0)));
    hide Coherent, Advance, TimedOut, PendingInput, SubmittedFor;
    if !Resumable(t) && !t.run.status.WaitingInput? { return t, false; }
    if t.run.status.WaitingInput? && PendingInput(t) { return t, false; }
    u := StartAttempt(t, if SubmittedFor(t, t.run.attempt) then ByInput else ByResume);
    done := true;
  }

  /** The run's own guards and statements of `retryInboxLaunch`. */
  method RetryRow(t: Task) returns (u: Task, done: bool)
    requires Coherent(t)
    ensures u == Apply(t, Retry(true)) && (done <==> Enabled(t, Retry(true)))
  {
    assert Coherent(t.(run := t.run.(lastSeq := 0)));
    hide Coherent, Advance, LaunchRetryable;
    if !t.run.status.Failed? || !LaunchRetryable(t.events) { return t, false; }
    u := StartAttempt(t, ByRetry);
    done := true;
  }

  /** The run's own guards and statements of `claimContinuation`. */
  method ClaimRow(t: Task, owner: nat, lease: int, now: int) returns (u: Task, done: bool)
    requires Coherent(t) && OneActive(t.conts)
    ensures u == Apply(t, Claim(owner, lease, now, false)) && (done <==> Enabled(t, Claim(owner, lease, now, false)))
  {
    var i := NextDue(t.conts, now);
    if i == |t.conts| || !t.run.status.Blocked? { return t, false; }
    u := t.(conts := t.conts[i := t.conts[i].(status := Leased, owner := owner, leaseUntil := Some(now + lease))]);
    u := u.(events := u.events + [EventRow(u.run.lastSeq + 1, u.run.attempt + 1, ContinuationStarted(i))]);
    u := u.(run := u.run.(lastSeq := u.run.lastSeq + 1));
    assert Coherent(u.(run := u.run.(lastSeq := 0)));
    hide Coherent, Advance, ActiveIndex, OneActive;
    u := StartAttempt(u, ByContinuation);
    done := true;
  }

  /** Interrupt the run if it is running. */
  method InterruptRun(t: Task) returns (u: Task)
    ensures u == Apply(t, Interrupt)
  {
    hide Project;
    if !t.run.status.Running? { return t; }
    u := t.(events := t.events + [EventRow(t.run.lastSeq + 1, t.run.attempt, RestartInterruption)]);
    u := u.(run := u.run.(status := Interrupted, lastSeq := u.run.lastSeq + 1));
    u := ProjectAttempt(u, u.run.attempt, ByRecovery, Interrupted, ByRecovery);
  }

  /** Give back the leases the owner holds on this run. */
  method ReleaseOwned(t: Task, owner: nat) returns (u: Task)
    requires OneActive(t.conts)
    ensures u == Apply(t, ReleaseAll(owner))
  {
    hide Requeue;
    u := t;
    for i := 0 to |t.conts|
      invariant u == if ActiveIndex(t.conts) < i && HeldBy(t, ActiveIndex(t.conts), owner)
        then Requeue(t, ActiveIndex(t.conts)) else t
    {
      if t.conts[i].status.Leased? && t.conts[i].owner == owner {
        OnlyActive(t.conts, i);
        u := GiveBack(u, i);
      }
    }
  }

  /** Give back a lease that has run out; a queued continuation that is due is left alone. */
  method RecoverRow(t: Task, now: int) returns (u: Task)
    requires OneActive(t.conts)
    ensures u == Apply(t, RecoverLease(now))
  {
    hide Requeue;
    u := t;
    for i := 0 to |t.conts|
      invariant u == if ActiveIndex(t.conts) < i && Expired(t, ActiveIndex(t.conts), now)
        then Requeue(t, ActiveIndex(t.conts)) else t
    {
      if (t.conts[i].status.Queued? && t.conts[i].notBefore <= now) || Expired(t, i, now) {
        OnlyActive(t.conts, i);
        if t.conts[i].status.Leased? { u := GiveBack(u, i); }
      }
    }
  }

  /** Queue one automatic continuation if the recovery query selects the run. */
  method QueueIfSafe(t: Task, w: CrashRecovery.Work, max: nat) returns (u: Task)
    requires OneActive(t.conts)
    ensures u == Apply(t, QueueSafe(CrashRecovery.ProvenSafe(t, w), max))
  {
    hide Project, SafeCount, CrashRecovery.ProvenSafe, WasInterrupted;
    if !t.run.status.Interrupted? || !WasInterrupted(t) || !NoneActive(t.conts) || !CrashRecovery.ProvenSafe(t, w)
       || SafeCount(t.events) >= max { return t; }
    u := InsertContinuation(t, 0);
    u := u.(events := u.events + [EventRow(u.run.lastSeq + 1, u.run.attempt, ContinuationQueued(true))]);
    u := u.(run := u.run.(status := Blocked, lastSeq := u.run.lastSeq + 1));
    u := ProjectAttempt(u, u.run.attempt, ByRecovery, Blocked, ByRecovery);
  }

  /** The active continuation, or a new queued one: its row and the rows that then exist. */
  method ActiveOrNew(t: Task) returns (u: Task, i: nat)
    requires OneActive(t.conts)
    ensures u == if NoneActive(t.conts) then Enqueue(t, 0) else t
    ensures i == ActiveIndex(u.conts) < |u.conts|
  {
    u := t;
    i := 0;
    while i < |t.conts| && !Active(t.conts[i])
      invariant i <= |t.conts| && forall k :: 0 <= k < i ==> !Active(t.conts[k])
    {
      i := i + 1;
    }
    if i == |t.conts| { u := InsertContinuation(u, 0); }
    FirstActiveIndex(u.conts, i);
  }

  /** The continuation that the newest preparation of this handoff recorded. */
  function Recorded(events: seq<EventRow>, request: nat): Option<nat> {
    if events == [] then None
    else
      var last := events[|events| - 1].kind;
      if last.HandoffPrepared? && last.request == request then Some(last.continuation)
      else Recorded(events[..|events| - 1], request)
  }

  lemma {:induction false} RecordedExactlyWhen(t: Task, events: seq<EventRow>, request: nat)
    requires events <= t.events
    ensures Recorded(events, request).Some? <==>
              exists i :: 0 <= i < |events| && events[i].kind.HandoffPrepared? && events[i].kind.request == request
    decreases |events|
  {
    if events != [] {
      var n := |events| - 1;
      RecordedExactlyWhen(t, events[..n], request);
      assert forall i :: 0 <= i < n ==> events[..n][i] == events[i];
    }
  }

  method FindHandoff(events: seq<EventRow>, request: nat) returns (found: Option<nat>)
    ensures found == Recorded(events, request)
  {
    var n := |events|;
    assert events[..n] == events;
    while n > 0 && !(events[n - 1].kind.HandoffPrepared? && events[n - 1].kind.request == request)
      invariant 0 <= n <= |events| && Recorded(events, request) == Recorded(events[..n], request)
    {
      assert events[..n][..n - 1] == events[..n - 1];
      n := n - 1;
    }
    found := if n > 0 then Some(events[n - 1].kind.continuation) else None;
    assert n > 0 ==> events[..n][n - 1] == events[n - 1];
  }

  /** `prepareGenerationHandoff` of an accepted activation, on the rows of one run: a request that was
      prepared before is answered with the continuation recorded then; a run that waits for input or was
      cancelled is left as it is. */
  method HandoffRow(t: Task, request: nat) returns (u: Task, continuation: Option<nat>, prepared: bool)
    requires OneActive(t.conts)
    ensures u == Apply(t, Handoff(request)) && (prepared <==> Enabled(t, Handoff(request)))
    ensures prepared ==> continuation == Some(ActiveIndex(u.conts)) && ActiveIndex(u.conts) < |u.conts|
    ensures !prepared ==> continuation == Recorded(t.events, request)
  {
    continuation := FindHandoff(t.events, request);
    RecordedExactlyWhen(t, t.events, request);
    assert continuation.Some? <==> HandedOff(t, request);
    hide HandedOff, OneActive, ActiveIndex, NoneActive, Lookup, Projected, StatusOf, Recorded;
    if continuation.Some? { return t, continuation, false; }
    if t.run.status !in {Running, Interrupted, Blocked, Completed, Failed} { return t, None, false; }
    var i;
    u, i := ActiveOrNew(t);
    u := u.(events := u.events + [EventRow(u.run.lastSeq + 1, u.run.attempt, HandoffPrepared(request, i))]);
    u := u.(run := u.run.(status := Blocked, lastSeq := u.run.lastSeq + 1));
    u := ProjectAttempt(u, u.run.attempt, ByRecovery, Blocked, ByRecovery);
    continuation, prepared := Some(i), true;
  }

  lemma FirstActiveIndex(conts: seq<Continuation>, i: nat)
    requires i < |conts| && Active(conts[i]) && forall k :: 0 <= k < i ==> !Active(conts[k])
    ensures ActiveIndex(conts) == i
  {
    assert ActiveIndex(conts) <= i;
  }

  lemma OnlyActive(conts: seq<Continuation>, i: nat)
    requires OneActive(conts) && i < |conts| && Active(conts[i])
    ensures ActiveIndex(conts) == i
  {
  }

  // ---------------------------------------------------------------- specifications over all runs

  /** One transaction on one run; an unknown run changes nothing. */
  ghost predicate Ran(before: map<RunId, Task>, after: map<RunId, Task>, id: RunId, s: Step) {
    after == if id in before then before[id := Apply(before[id], s)] else before
  }

  ghost predicate Done(before: map<RunId, Task>, id: RunId, s: Step) {
    id in before && Enabled(before[id], s)
  }

  ghost predicate AllValid(tasks: map<RunId, Task>) {
    forall k :: k in tasks ==> Valid(tasks[k])
  }

  lemma RanValid(before: map<RunId, Task>, after: map<RunId, Task>, id: RunId, s: Step)
    requires AllValid(before) && Ran(before, after, id, s)
    ensures AllValid(after)
  {
    hide Valid, Apply;
    if id in before { StepKeeps(before[id], s); }
  }

  lemma SweptValid(before: map<RunId, Task>, after: map<RunId, Task>, s: Step)
    requires AllValid(before) && after == map k | k in before :: Apply(before[k], s)
    ensures AllValid(after)
  {
    hide Valid, Apply;
    forall k | k in before ensures Valid(Apply(before[k], s)) { StepKeeps(before[k], s); }
  }

  /** Each method is one transaction: it works on the rows of a run and commits them at the end. */
  class Store {
    var tasks: map<RunId, Task>
    var session: map<RunId, SessionId>

    ghost predicate Reachable()
      reads this
    {
      AllValid(tasks) && session.Keys == tasks.Keys
    }

    ghost function View(): Sessions.Runs
      reads this
    {
      Sessions.Runs(tasks, session)
    }

    constructor ()
      ensures Reachable() && tasks == map[]
    {
      tasks, session := map[], map[];
    }

    method Commit(id: RunId, t: Task, ghost s: Step)
      requires Reachable() && id in tasks && t == Apply(tasks[id], s)
      modifies this`tasks
      ensures Reachable() && tasks == old(tasks)[id := t]
    {
      hide Valid, Apply;
      tasks := tasks[id := t];
      RanValid(old(tasks), tasks, id, s);
    }

    // -------------------------------------------------------------- runs

    method CreateRun(s: SessionId, id: RunId)
      requires Reachable() && id !in tasks
      modifies this
      ensures Reachable()
      ensures tasks == old(tasks)[id := Created()] && session == old(session)[id := s]
    {
      hide Valid, Project;
      var t := Task(RunRow(Running, 1, 0), map[], [], [], [], []);
      assert Supersede(map[], 1) == map[];
      t := ProjectAttempt(t, 1, ByInitial, Running, ByInitial);
      CreatedValid();
      session := session[id := s];
      tasks := tasks[id := t];
    }

    method TransitionRun(id: RunId, expected: set<RunStatus>, next: RunStatus, kind: EventKind,
                         expectedAttempt: Option<nat>)
      returns (done: bool)
      requires Reachable()
      modifies this`tasks
      ensures Reachable() && Ran(old(tasks), tasks, id, Transition(expected, next, kind, expectedAttempt))
      ensures done <==>
                && id in old(tasks) && old(tasks)[id].run.status in expected
                && (expectedAttempt == None || expectedAttempt == Some(old(tasks)[id].run.attempt))
      ensures !done ==> tasks == old(tasks)
      ensures done ==> id in tasks && RunLaws.Transitioned(old(tasks)[id], tasks[id], next, kind)
                       && tasks == old(tasks)[id := tasks[id]]
    {
      hide Coherent, Audited, Dense;
      if id !in tasks { return false; }
      RunLaws.TransitionsExactlyWhen(tasks[id], expected, next, kind, expectedAttempt);
      assert Enabled(tasks[id], Transition(expected, next, kind, expectedAttempt)) <==>
          tasks[id].run.status in expected && expectedAttempt in {None, Some(tasks[id].run.attempt)};
      hide Apply, Enabled, RunLaws.Transitioned;
      var t;
      t, done := TransitionRow(tasks[id], expected, next, kind, expectedAttempt);
      Commit(id, t, Transition(expected, next, kind, expectedAttempt));
    }

    /** A pending request is returned as it is; otherwise a new one is recorded and the run waits for it. */
    method RequestUserInput(id: RunId) returns (asked: bool)
      requires Reachable()
      modifies this`tasks
      ensures Reachable() && Ran(old(tasks), tasks, id, RequestInput)
      ensures asked <==> Done(old(tasks), id, RequestInput)
    {
      hide Valid, Project;
      if id !in tasks { return false; }
      var t := tasks[id];
      var row := t.run;
      if !row.status.Running? || PendingInput(t) { return false; }
      t := t.(events := t.events + [EventRow(row.lastSeq + 1, row.attempt, WaitingForInput)]);
      t := t.(inputs := t.inputs + [InputRow(row.attempt, true)]);
      t := t.(run := row.(status := WaitingInput, lastSeq := row.lastSeq + 1));
      t := ProjectAttempt(t, row.attempt, ByInput, WaitingInput, ByInput);
      asked := true;
      Commit(id, t, RequestInput);
    }

    method ResumeRun(id: RunId) returns (done: bool)
      requires Reachable()
      modifies this`tasks
      ensures Reachable() && Ran(old(tasks), tasks, id, Resume)
      ensures done <==> Done(old(tasks), id, Resume)
    {
      hide Apply, Enabled, Coherent, Audited, Dense;
      if id !in tasks { return false; }
      var t;
      t, done := ResumeRow(tasks[id]);
      Commit(id, t, Resume);
    }

    /** Another run of the session is running. */
    method OtherRunning(id: RunId) returns (busy: bool)
      requires id in tasks && session.Keys == tasks.Keys
      ensures busy == Sessions.Busy(View(), id)
    {
      busy := exists k ::
        k in tasks && k in session && k != id && session[k] == session[id] && tasks[k].run.status.Running?;
    }

    /** Another run of the session waits for its continuation. */
    method OtherWaiting(id: RunId) returns (waiting: bool)
      requires id in tasks && session.Keys == tasks.Keys
      ensures waiting == Sessions.AwaitsContinuation(View(), session[id], Some(id))
    {
      waiting := exists k :: k in tasks && k in session && k != id && session[k] == session[id]
                             && tasks[k].run.status in {Blocked, Interrupted} && !NoneActive(tasks[k].conts);
    }

    /** `retryInboxLaunch` of a run whose inbox item has started or not. */
    method RetryInboxLaunch(id: RunId, inboxStarted: bool) returns (done: bool)
      requires Reachable()
      modifies this`tasks
      ensures Reachable() && View() == Sessions.Next(old(View()), Sessions.RetryLaunch(id, inboxStarted))
      ensures done <==> id in old(tasks) && Enabled(old(tasks)[id], Sessions.RetryStep(old(View()), id, inboxStarted))
    {
      hide Effect, Coherent, Audited, Dense, Sessions.Busy, Sessions.AwaitsContinuation, LaunchRetryable;
      if id !in tasks || !inboxStarted { return false; }
      var busy := OtherRunning(id);
      if busy { return false; }
      var waiting := OtherWaiting(id);
      if waiting { return false; }
      var t;
      t, done := RetryRow(tasks[id]);
      Commit(id, t, Retry(true));
    }

    method AppendEvent(id: RunId, kind: EventKind) returns (done: bool)
      requires Reachable()
      modifies this`tasks
      ensures Reachable() && Ran(old(tasks), tasks, id, Append(kind))
      ensures done <==> id in old(tasks)
    {
      hide Valid;
      if id !in tasks { return false; }
      var t := tasks[id];
      t := t.(events := t.events + [EventRow(t.run.lastSeq + 1, t.run.attempt, kind)]);
      t := t.(run := t.run.(lastSeq := t.run.lastSeq + 1));
      done := true;
      Commit(id, t, Append(kind));
    }

    /** Every running run is interrupted, one after the other. */
    method MarkInterrupted()
      requires Reachable()
      modifies this`tasks
      ensures Reachable() && tasks == map k | k in old(tasks) :: Apply(old(tasks)[k], Interrupt)
    {
      hide Apply, Coherent, Audited, Dense, OneActive;
      var todo := tasks.Keys;
      while todo != {}
        invariant todo <= tasks.Keys == old(tasks).Keys
        invariant forall k :: k in tasks ==> tasks[k] == if k in todo then old(tasks)[k]
          else Apply(old(tasks)[k], Interrupt)
        decreases |todo|
      {
        var k :| k in todo;
        var t := InterruptRun(tasks[k]);
        tasks := tasks[k := t];
        todo := todo - {k};
      }
      assert tasks == map k | k in old(tasks) :: Apply(old(tasks)[k], Interrupt);
      SweptValid(old(tasks), tasks, Interrupt);
    }

    // -------------------------------------------------------------- continuations

    method QueueContinuation(id: RunId, notBefore: int) returns (done: bool)
      requires Reachable()
      modifies this`tasks
      ensures Reachable() && Ran(old(tasks), tasks, id, Step.QueueContinuation(notBefore))
      ensures done <==> Done(old(tasks), id, Step.QueueContinuation(notBefore))
    {
      hide Apply, Enabled, Coherent, Audited, Dense;
      if id !in tasks { return false; }
      var t;
      t, done := QueueRow(tasks[id], notBefore);
      Commit(id, t, Step.QueueContinuation(notBefore));
    }

    method ClaimContinuation(id: RunId, owner: nat, lease: int, now: int) returns (done: bool)
      requires Reachable()
      modifies this`tasks
      ensures Reachable() && View() == Sessions.Next(old(View()), Sessions.ClaimContinuation(id, owner, lease, now))
      ensures done <==> Done(old(tasks), id, Claim(owner, lease, now, Sessions.Busy(old(View()), id)))
    {
      hide Effect, Coherent, Audited, Dense, OneActive, ActiveIndex, Sessions.Busy;
      if id !in tasks { return false; }
      var busy := OtherRunning(id);
      if busy { return false; }
      var t;
      t, done := ClaimRow(tasks[id], owner, lease, now);
      Commit(id, t, Claim(owner, lease, now, false));
    }

    method RenewContinuationLease(id: RunId, i: nat, owner: nat, lease: int, now: int) returns (done: bool)
      requires Reachable()
      modifies this`tasks
      ensures Reachable() && Ran(old(tasks), tasks, id, Renew(i, owner, lease, now))
      ensures done <==> Done(old(tasks), id, Renew(i, owner, lease, now))
    {
      hide Valid;
      if id !in tasks || i >= |tasks[id].conts| { return false; }
      var t := tasks[id];
      var c := t.conts[i];
      if !c.status.Leased? || c.owner != owner || c.leaseUntil.None? || c.leaseUntil.value <= now { return false; }
      t := t.(conts := t.conts[i := c.(leaseUntil := Some(now + lease))]);
      done := true;
      Commit(id, t, Renew(i, owner, lease, now));
    }

    method ReleaseContinuationLease(id: RunId, i: nat, owner: nat) returns (done: bool)
      requires Reachable()
      modifies this`tasks
      ensures Reachable() && Ran(old(tasks), tasks, id, Release(i, owner))
      ensures done <==> Done(old(tasks), id, Release(i, owner))
    {
      hide Valid, Requeue;
      if id !in tasks || i >= |tasks[id].conts| { return false; }
      var c := tasks[id].conts[i];
      if !c.status.Leased? || c.owner != owner { return false; }
      var t := GiveBack(tasks[id], i);
      done := true;
      Commit(id, t, Release(i, owner));
    }

    /** Every lease of one owner, over all runs. */
    method ReleaseContinuationLeases(owner: nat)
      requires Reachable()
      modifies this`tasks
      ensures Reachable() && tasks == map k | k in old(tasks) :: Apply(old(tasks)[k], ReleaseAll(owner))
    {
      hide Apply, Coherent, Audited, Dense, OneActive;
      var todo := tasks.Keys;
      while todo != {}
        invariant todo <= tasks.Keys == old(tasks).Keys
        invariant forall k :: k in tasks ==> tasks[k] == if k in todo then old(tasks)[k]
          else Apply(old(tasks)[k], ReleaseAll(owner))
        decreases |todo|
      {
        var k :| k in todo;
        var t := ReleaseOwned(tasks[k], owner);
        tasks := tasks[k := t];
        todo := todo - {k};
      }
      assert tasks == map k | k in old(tasks) :: Apply(old(tasks)[k], ReleaseAll(owner));
      SweptValid(old(tasks), tasks, ReleaseAll(owner));
    }

    /** Every lease that has run out, over all runs. */
    method RecoverContinuationsAfterRestart(now: int)
      requires Reachable()
      modifies this`tasks
      ensures Reachable() && tasks == map k | k in old(tasks) :: Apply(old(tasks)[k], RecoverLease(now))
    {
      hide Apply, Coherent, Audited, Dense, OneActive;
      var todo := tasks.Keys;
      while todo != {}
        invariant todo <= tasks.Keys == old(tasks).Keys
        invariant forall k :: k in tasks ==> tasks[k] == if k in todo then old(tasks)[k]
          else Apply(old(tasks)[k], RecoverLease(now))
        decreases |todo|
      {
        var k :| k in todo;
        var t := RecoverRow(tasks[k], now);
        tasks := tasks[k := t];
        todo := todo - {k};
      }
      assert tasks == map k | k in old(tasks) :: Apply(old(tasks)[k], RecoverLease(now));
      SweptValid(old(tasks), tasks, RecoverLease(now));
    }

    /** Every interrupted run whose work is proven safe is queued to continue by itself. */
    method QueueSafeCrashRecoveryContinuations(work: map<RunId, CrashRecovery.Work>, max: nat)
      requires Reachable() && work.Keys == tasks.Keys
      modifies this`tasks
      ensures Reachable()
      ensures tasks == map k | k in old(tasks) ::
        Apply(old(tasks)[k], QueueSafe(CrashRecovery.ProvenSafe(old(tasks)[k], work[k]), max))
    {
      hide Apply, Coherent, Audited, Dense, OneActive, CrashRecovery.ProvenSafe;
      var todo := tasks.Keys;
      while todo != {}
        invariant todo <= tasks.Keys == old(tasks).Keys == work.Keys
        invariant forall k :: k in tasks ==> tasks[k] == if k in todo then old(tasks)[k]
                              else Apply(old(tasks)[k],
                                         QueueSafe(CrashRecovery.ProvenSafe(old(tasks)[k], work[k]), max))
        decreases |todo|
      {
        var k :| k in todo;
        var t := QueueIfSafe(tasks[k], work[k], max);
        tasks := tasks[k := t];
        todo := todo - {k};
      }
      assert tasks == map k | k in old(tasks) ::
        Apply(old(tasks)[k], QueueSafe(CrashRecovery.ProvenSafe(old(tasks)[k], work[k]), max));
      forall k | k in tasks ensures Valid(tasks[k]) {
        StepKeeps(old(tasks)[k], QueueSafe(CrashRecovery.ProvenSafe(old(tasks)[k], work[k]), max));
      }
    }

    method PrepareGenerationHandoff(id: RunId, request: nat) returns (continuation: Option<nat>, prepared: bool)
      requires Reachable()
      modifies this`tasks
      ensures Reachable() && Ran(old(tasks), tasks, id, Handoff(request))
      ensures prepared <==> Done(old(tasks), id, Handoff(request))
      ensures prepared ==>
                && continuation == Some(ActiveIndex(tasks[id].conts))
                && ActiveIndex(tasks[id].conts) < |tasks[id].conts|
      ensures id in old(tasks) && !prepared ==> continuation == Recorded(old(tasks)[id].events, request)
    {
      hide Apply, Enabled, Coherent, Audited, Dense;
      if id !in tasks { return None, false; }
      var t;
      t, continuation, prepared := HandoffRow(tasks[id], request);
      Commit(id, t, Handoff(request));
    }
  }
}
