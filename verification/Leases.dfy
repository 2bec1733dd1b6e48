/** What continuation leases guarantee over any sequence of transactions on one run. */
module Leases {
  import opened Wrappers
  import opened TaskRun

  // ---------------------------------------------------------------- claims are separated

  /** The step gives continuation `i` back: by its holder, or by recovery once its last lease has run out. */
  predicate Frees(t: Task, s: Step, i: nat) {
    match s
    case Release(k, owner) => k == i && HeldBy(t, i, owner)
    case ReleaseAll(owner) => HeldBy(t, i, owner)
    case RecoverLease(now) => Expired(t, i, now)
    case _ => false
  }

  predicate Unclaimed(t: Task, i: nat) {
    i < |t.conts| && t.conts[i].status.Queued?
  }

  predicate IsLeased(t: Task, i: nat) {
    i < |t.conts| && t.conts[i].status.Leased?
  }

  lemma FirstActive(t: Task, i: nat)
    requires OneActive(t.conts) && i < |t.conts| && Active(t.conts[i])
    ensures ActiveIndex(t.conts) == i
  {
  }

  lemma LeaseEndsSomehow(t: Task, s: Step, i: nat)
    requires OneActive(t.conts) && IsLeased(t, i)
    ensures i < |Apply(t, s).conts|
    ensures Frees(t, s, i) || IsLeased(Apply(t, s), i) || Apply(t, s).conts[i].status.Closed?
  {
    FirstActive(t, i);
    hide SafeCount, ActiveIndex, OneActive, Lookup, Projected;
  }

  lemma ClosedStays(t: Task, s: Step, i: nat)
    requires i < |t.conts| && t.conts[i].status.Closed?
    ensures i < |Apply(t, s).conts| && Apply(t, s).conts[i].status.Closed?
  {
    hide SafeCount, Lookup, Projected;
  }

  lemma {:induction false} ClosedForever(t: Task, steps: seq<Step>, i: nat)
    requires i < |t.conts| && t.conts[i].status.Closed?
    ensures i < |Replay(t, steps).conts| && Replay(t, steps).conts[i].status.Closed?
    decreases |steps|
  {
    hide Apply;
    if steps != [] {
      ClosedStays(t, steps[0], i);
      ClosedForever(Apply(t, steps[0]), steps[1..], i);
    }
  }

  predicate FreedAt(t: Task, steps: seq<Step>, i: nat, k: nat) {
    k < |steps| && Frees(Replay(t, steps[..k]), steps[k], i)
  }

  /** A leased continuation is queued again only after a step that freed it. */
  lemma {:induction false} RequeuedWasFreed(t: Task, steps: seq<Step>, i: nat) returns (k: nat)
    requires Valid(t) && IsLeased(t, i) && Unclaimed(Replay(t, steps), i)
    ensures FreedAt(t, steps, i, k)
    decreases |steps|
  {
    hide Apply, Frees, Valid;
    assert OneActive(t.conts) by { ValidOneActive(t); }
    var next := Apply(t, steps[0]);
    LeaseEndsSomehow(t, steps[0], i);
    if Frees(t, steps[0], i) {
      k := 0;
      assert steps[..0] == [];
    } else if IsLeased(next, i) {
      StepKeeps(t, steps[0]);
      var rest := RequeuedWasFreed(next, steps[1..], i);
      k := rest + 1;
      assert steps[..k][1..] == steps[1..][..rest];
      assert steps[..k][0] == steps[0];
    } else {
      ClosedForever(next, steps[1..], i);
      assert false;
    }
  }

  lemma ValidOneActive(t: Task)
    requires Valid(t)
    ensures OneActive(t.conts)
  {
  }

  lemma ClaimTakesLease(t: Task, owner: nat, lease: int, now: int, busy: bool)
    requires Enabled(t, Step.Claim(owner, lease, now, busy))
    ensures var u := Apply(t, Step.Claim(owner, lease, now, busy));
            var i := ActiveIndex(t.conts);
            u.run.attempt == t.run.attempt + 1 && |u.conts| == |t.conts| && u.conts[i].leaseUntil == Some(now + lease)
            && HeldBy(u, i, owner) && u.run.status.Running?
  {
    hide ActiveIndex;
  }

  lemma ClaimedIsLeased(t: Task, s: Step)
    requires Valid(t) && s.Claim? && Enabled(t, s)
    ensures Unclaimed(t, ActiveIndex(t.conts)) && IsLeased(Apply(t, s), ActiveIndex(t.conts)) && Valid(Apply(t, s))
  {
    StepKeeps(t, s);
    ClaimTakesLease(t, s.owner, s.lease, s.now, s.sessionBusy);
    hide Valid, Apply;
  }

  /** Every claim of any continuation starts a strictly later attempt than every claim before it. */
  lemma EveryClaimIsLater(t: Task, first: Step, steps: seq<Step>, second: Step)
    requires Valid(t) && first.Claim? && second.Claim? && Enabled(t, first)
    requires Enabled(Replay(Apply(t, first), steps), second)
    ensures Apply(Replay(Apply(t, first), steps), second).run.attempt > Apply(t, first).run.attempt
  {
    var u := Replay(Apply(t, first), steps);
    ClaimTakesLease(u, second.owner, second.lease, second.now, second.sessionBusy);
    StepKeeps(t, first);
    ReplayKeeps(Apply(t, first), steps);
    hide Apply, Valid;
  }

  /** Between two successful claims of one continuation its holder released it, or recovery took it back
      at or after its last lease_until; and the second claim starts a strictly later attempt. */
  lemma ClaimsAreSeparated(t: Task, first: Step, steps: seq<Step>, second: Step)
    requires Valid(t) && first.Claim? && second.Claim? && Enabled(t, first)
    requires var u := Replay(Apply(t, first), steps);
             Enabled(u, second) && ActiveIndex(u.conts) == ActiveIndex(t.conts)
    ensures exists k :: FreedAt(Apply(t, first), steps, ActiveIndex(t.conts), k)
    ensures Apply(Replay(Apply(t, first), steps), second).run.attempt > Apply(t, first).run.attempt
  {
    hide Valid, Apply, Enabled, Replay, IsLeased, Unclaimed, FreedAt, ActiveIndex;
    var c := Apply(t, first);
    ClaimedIsLeased(t, first);
    ReplayKeeps(c, steps);
    ClaimedIsLeased(Replay(c, steps), second);
    EveryClaimIsLater(t, first, steps, second);
    var k := RequeuedWasFreed(c, steps, ActiveIndex(t.conts));
  }

  // ---------------------------------------------------------------- an expired lease is gone

  /** `ownsContinuationLease`. */
  predicate Owns(t: Task, i: nat, owner: nat, now: int) {
    HeldBy(t, i, owner) && !Expired(t, i, now)
  }

  function Time(s: Step, before: int): int {
    match s
    case Claim(_, _, now, _) => now
    case Renew(_, _, _, now) => now
    case RecoverLease(now) => now
    case _ => before
  }

  /** The clock of the transactions never goes back. */
  predicate Timely(steps: seq<Step>, from: int)
    decreases |steps|
  {
    steps == [] || (from <= Time(steps[0], from) && Timely(steps[1..], Time(steps[0], from)))
  }

  function EndTime(steps: seq<Step>, from: int): int
    decreases |steps|
  {
    if steps == [] then from else EndTime(steps[1..], Time(steps[0], from))
  }

  predicate ClaimsFor(s: Step, owner: nat) {
    s.Claim? && s.owner == owner
  }

  lemma StepGivesNoLease(t: Task, s: Step, i: nat, owner: nat, now: int)
    requires OneActive(t.conts) && !Owns(t, i, owner, now) && now <= Time(s, now) && !ClaimsFor(s, owner)
    ensures !Owns(Apply(t, s), i, owner, Time(s, now))
  {
    hide SafeCount, Lookup, Projected;
  }

  /** Once an owner's lease has expired or ended, only a new claim by that owner makes it own the
      continuation again: no renewal, recovery or other transaction does. */
  lemma {:induction false} LostLeaseStaysLost(t: Task, steps: seq<Step>, i: nat, owner: nat, now: int)
    requires Valid(t) && !Owns(t, i, owner, now) && Timely(steps, now)
    requires forall k :: 0 <= k < |steps| ==> !ClaimsFor(steps[k], owner)
    ensures !Owns(Replay(t, steps), i, owner, EndTime(steps, now))
    decreases |steps|
  {
    ValidOneActive(t);
    hide Apply, Valid, Owns, Time, OneActive;
    if steps != [] {
      StepKeeps(t, steps[0]);
      StepGivesNoLease(t, steps[0], i, owner, now);
      LostLeaseStaysLost(Apply(t, steps[0]), steps[1..], i, owner, Time(steps[0], now));
    }
  }
}
