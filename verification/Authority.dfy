/** Approvals of external actions: authority is bound to one attempt of a run and dies with it. */
module Authority {
  import opened Wrappers
  import opened TaskRun

  type Id = nat

  datatype ApprovalStatus = Pending | Approved | Rejected | Consumed

  /** `external` is the action type execute_external_action; `approvedAttempt` comes from the metadata. */
  datatype Approval = Approval(
    id: Id, requestedAt: int, external: bool, target: nat, approvedAttempt: Option<nat>, status: ApprovalStatus,
    used: Option<nat>, reusable: bool, maxUses: Option<nat>, expiresAt: Option<int>, digest: Option<nat>)

  /** An allow receipt; `approval` is None for receipts of other approval sources. */
  datatype Receipt = Receipt(approval: Option<Id>, operation: nat, attempt: nat)

  datatype State = State(task: Task, approvals: seq<Approval>, receipts: seq<Receipt>)

  datatype Outcome = Denied | Allowed(approval: Id) | Raced | Conflict

  // ---------------------------------------------------------------- the two queries

  predicate RunsIn(t: Task, attempt: nat) {
    && t.run.attempt == attempt && t.run.status.Running?
    && attempt in t.attempts && t.attempts[attempt].active && t.attempts[attempt].status.Running?
  }

  predicate Usable(a: Approval, now: int) {
    && ((!a.reusable && a.maxUses == Some(1)) || (a.reusable && (a.maxUses.None? || a.maxUses.value > 0)))
    && (a.expiresAt.None? || a.expiresAt.value > now)
  }

  predicate Grants(a: Approval, attempt: nat, now: int) {
    && a.external && a.approvedAttempt == Some(attempt) && a.used.Some?
    && (((a.status.Approved? || a.status.Consumed?) && a.used.value > 0)
        || (a.status.Approved? && a.used.value == 0 && Usable(a, now)
            && (a.maxUses.None? || a.used.value < a.maxUses.value)))
  }

  predicate Later(a: Approval, b: Approval) {
    a.requestedAt > b.requestedAt || (a.requestedAt == b.requestedAt && a.id > b.id)
  }

  /** The newest approval that grants the attempt: its index, or the length if there is none. */
  function Newest(approvals: seq<Approval>, attempt: nat, now: int): (i: nat)
    ensures i <= |approvals|
    ensures i < |approvals| ==> Grants(approvals[i], attempt, now)
    ensures i == |approvals| ==> forall k :: 0 <= k < |approvals| ==> !Grants(approvals[k], attempt, now)
    ensures i < |approvals| ==>
      forall k :: 0 <= k < |approvals| && Grants(approvals[k], attempt, now) ==> !Later(approvals[k], approvals[i])
  {
    if approvals == [] then 0
    else
      var n := |approvals| - 1;
      var i := Newest(approvals[..n], attempt, now);
      if i < n then if Grants(approvals[n], attempt, now) && Later(approvals[n], approvals[i]) then n else i
      else if Grants(approvals[n], attempt, now) then n else n + 1
  }

  /** `inspectExternalActionAuthorization`. */
  predicate Inspect(s: State, attempt: nat, now: int) {
    RunsIn(s.task, attempt) && Newest(s.approvals, attempt, now) < |s.approvals|
  }

  predicate HasReceipt(receipts: seq<Receipt>, approval: Id, operation: nat) {
    exists r :: r in receipts && r.approval == Some(approval) && r.operation == operation
  }

  /** The unique index on allow receipts. */
  predicate Receipted(receipts: seq<Receipt>, operation: nat) {
    exists r :: r in receipts && r.operation == operation
  }

  function Used(a: Approval): Approval {
    a.(used := Some(1), status := if a.maxUses.Some? && a.maxUses.value <= 1 then Consumed else Approved)
  }

  /** `activateExternalActionAuthorization`; a conflicting receipt throws and rolls back. */
  function Activate(s: State, attempt: nat, operation: nat, now: int): (State, Outcome) {
    if !Inspect(s, attempt, now) then (s, Denied)
    else
      var i := Newest(s.approvals, attempt, now);
      var a := s.approvals[i];
      if a.digest.None? then (s, Denied)
      else if HasReceipt(s.receipts, a.id, operation) then (s, Allowed(a.id))
      else if a.used == Some(0) && !(a.status.Approved? && Usable(a, now)) then (s, Raced)
      else if Receipted(s.receipts, operation) then (s, Conflict)
      else
        (s.(approvals := if a.used == Some(0) then s.approvals[i := Used(a)] else s.approvals,
            receipts := s.receipts + [Receipt(Some(a.id), operation, attempt)]), Allowed(a.id))
  }

  // ---------------------------------------------------------------- histories

  datatype Event =
    | Transact(step: Step)
    | Ensure(id: Id, now: int, external: bool, target: nat, approvedAttempt: Option<nat>)
    | Resolve(id: Id, approve: bool)
    | Use(attempt: nat, operation: nat, now: int)
    | OtherReceipt(operation: nat)

  predicate AnyPending(approvals: seq<Approval>) {
    exists i :: 0 <= i < |approvals| && approvals[i].status.Pending?
  }

  predicate Known(approvals: seq<Approval>, id: Id) {
    exists i :: 0 <= i < |approvals| && approvals[i].id == id
  }

  /** The row `ensureApprovalRequest` writes, with its defaults: one use, no expiry. */
  function Requested(id: Id, now: int, external: bool, target: nat, approvedAttempt: Option<nat>): Approval {
    Approval(id, now, external, target, approvedAttempt, Pending, Some(0), false, Some(1), None, Some(id))
  }

  function Resolved(approvals: seq<Approval>, id: Id, approve: bool): seq<Approval> {
    seq(|approvals|, i requires 0 <= i < |approvals| =>
      if approvals[i].id == id && approvals[i].status.Pending?
      then approvals[i].(status := if approve then Approved else Rejected) else approvals[i])
  }

  /** A run has one pending request at most: a second one is returned as it is, or refused by the unique index. */
  function Next(s: State, e: Event): State {
    match e
    case Transact(step) => s.(task := Apply(s.task, step))
    case Ensure(id, now, external, target, approvedAttempt) =>
      if AnyPending(s.approvals) || Known(s.approvals, id) then s
      else s.(approvals := s.approvals + [Requested(id, now, external, target, approvedAttempt)])
    case Resolve(id, approve) => s.(approvals := Resolved(s.approvals, id, approve))
    case Use(attempt, operation, now) => Activate(s, attempt, operation, now).0
    case OtherReceipt(operation) =>
      if Receipted(s.receipts, operation) then s else s.(receipts := s.receipts + [Receipt(None, operation, 0)])
  }

  function History(s: State, events: seq<Event>): State
    decreases |events|
  {
    if events == [] then s else History(Next(s, events[0]), events[1..])
  }

  // ---------------------------------------------------------------- what every history keeps

  /** As made by `ensureApprovalRequest`: one use, spent exactly when consumed. */
  predicate OneTime(a: Approval) {
    && !a.reusable && a.maxUses == Some(1) && a.expiresAt.None? && a.digest.Some?
    && (a.used == Some(0) || a.used == Some(1))
    && (a.used == Some(1) <==> a.status.Consumed?)
  }

  predicate AllOneTime(approvals: seq<Approval>) {
    && (forall i :: 0 <= i < |approvals| ==> OneTime(approvals[i]))
    && (forall i, j :: 0 <= i < j < |approvals| ==> approvals[i].id != approvals[j].id)
  }

  /** The receipt was written under this approval, for the attempt it approved. */
  predicate WrittenUnder(a: Approval, r: Receipt) {
    r.approval == Some(a.id) && a.external && a.approvedAttempt == Some(r.attempt) && a.status.Consumed?
  }

  predicate Backed(approvals: seq<Approval>, r: Receipt) {
    exists i :: 0 <= i < |approvals| && WrittenUnder(approvals[i], r)
  }

  predicate Spent(a: Approval, receipts: seq<Receipt>) {
    exists k :: 0 <= k < |receipts| && WrittenUnder(a, receipts[k])
  }

  /** Receipts and consumed approvals match one to another, and no operation is allowed twice. */
  predicate Matched(approvals: seq<Approval>, receipts: seq<Receipt>) {
    && (forall k :: 0 <= k < |receipts| && receipts[k].approval.Some? ==> Backed(approvals, receipts[k]))
    && (forall i :: 0 <= i < |approvals| && approvals[i].status.Consumed? ==> Spent(approvals[i], receipts))
    && (forall j, k :: 0 <= j < k < |receipts| ==> receipts[j].operation != receipts[k].operation)
  }

  ghost predicate Sound(s: State) {
    Valid(s.task) && AllOneTime(s.approvals) && Matched(s.approvals, s.receipts)
  }

  /** Attempts only pass, and a consumed approval never changes again. */
  predicate Onward(s: State, u: State) {
    && s.task.run.attempt <= u.task.run.attempt && |s.approvals| <= |u.approvals| && s.receipts <= u.receipts
    && (forall i :: 0 <= i < |s.approvals| && s.approvals[i].status.Consumed? ==> u.approvals[i] == s.approvals[i])
  }

  lemma UseChanges(s: State, attempt: nat, operation: nat, now: int)
    requires Activate(s, attempt, operation, now).0 != s
    ensures var i := Newest(s.approvals, attempt, now);
            && i < |s.approvals| && RunsIn(s.task, attempt) && Grants(s.approvals[i], attempt, now)
            && !Receipted(s.receipts, operation)
            && Activate(s, attempt, operation, now).0
               == s.(approvals := if s.approvals[i].used == Some(0) then s.approvals[i := Used(s.approvals[i])]
                     else s.approvals,
                     receipts := s.receipts + [Receipt(Some(s.approvals[i].id), operation, attempt)])
  {
    hide Newest, Usable, Later;
  }

  /** `left` is `approvals` with approval `i` spent. */
  predicate SpentAt(approvals: seq<Approval>, left: seq<Approval>, i: nat) {
    && i < |approvals| == |left| && left[i].id == approvals[i].id && left[i].external == approvals[i].external
    && left[i].approvedAttempt == approvals[i].approvedAttempt && left[i].status.Consumed?
    && forall k :: 0 <= k < |approvals| && k != i ==> left[k] == approvals[k]
  }

  lemma SpendBacks(approvals: seq<Approval>, left: seq<Approval>, receipts: seq<Receipt>, i: nat, r: Receipt)
    requires SpentAt(approvals, left, i) && WrittenUnder(left[i], r)
    requires forall k :: 0 <= k < |receipts| && receipts[k].approval.Some? ==> Backed(approvals, receipts[k])
    ensures var more := receipts + [r];
            forall k :: 0 <= k < |more| && more[k].approval.Some? ==> Backed(left, more[k])
  {
    forall k | 0 <= k < |receipts| && receipts[k].approval.Some? ensures Backed(left, receipts[k]) {
      var j :| 0 <= j < |approvals| && WrittenUnder(approvals[j], receipts[k]);
      assert WrittenUnder(left[j], receipts[k]);
    }
  }

  lemma SpendSpends(approvals: seq<Approval>, left: seq<Approval>, receipts: seq<Receipt>, i: nat, r: Receipt)
    requires SpentAt(approvals, left, i) && WrittenUnder(left[i], r)
    requires forall k :: 0 <= k < |approvals| && approvals[k].status.Consumed? ==> Spent(approvals[k], receipts)
    ensures forall k :: 0 <= k < |left| && left[k].status.Consumed? ==> Spent(left[k], receipts + [r])
  {
    var more := receipts + [r];
    assert more[|receipts|] == r;
    forall j | 0 <= j < |left| && left[j].status.Consumed? ensures Spent(left[j], more) {
      if j != i {
        var k :| 0 <= k < |receipts| && WrittenUnder(approvals[j], receipts[k]);
        assert WrittenUnder(left[j], more[k]);
      }
    }
  }

  lemma SpendOne(approvals: seq<Approval>, receipts: seq<Receipt>, i: nat, attempt: nat, operation: nat, now: int)
    requires AllOneTime(approvals) && Matched(approvals, receipts) && i < |approvals|
    requires Grants(approvals[i], attempt, now) && !Receipted(receipts, operation)
    ensures var more := receipts + [Receipt(Some(approvals[i].id), operation, attempt)];
            var left := if approvals[i].used == Some(0) then approvals[i := Used(approvals[i])] else approvals;
            AllOneTime(left) && Matched(left, more) && SpentAt(approvals, left, i)
  {
    var r := Receipt(Some(approvals[i].id), operation, attempt);
    var left := if approvals[i].used == Some(0) then approvals[i := Used(approvals[i])] else approvals;
    assert OneTime(approvals[i]);
    assert SpentAt(approvals, left, i) && WrittenUnder(left[i], r);
    NotReceipted(receipts, operation);
    hide Usable, Later, Receipted, SpentAt, WrittenUnder, Backed, Spent, Grants;
    SpendBacks(approvals, left, receipts, i, r);
    SpendSpends(approvals, left, receipts, i, r);
  }

  lemma NotReceipted(receipts: seq<Receipt>, operation: nat)
    requires !Receipted(receipts, operation)
    ensures forall k :: 0 <= k < |receipts| ==> receipts[k].operation != operation
  {
    forall k | 0 <= k < |receipts| ensures receipts[k].operation != operation {
      assert receipts[k] in receipts;
    }
  }

  lemma UseKeeps(s: State, attempt: nat, operation: nat, now: int)
    requires Sound(s)
    ensures Sound(Next(s, Use(attempt, operation, now))) && Onward(s, Next(s, Use(attempt, operation, now)))
  {
    hide Valid, AllOneTime, Matched, Activate;
    var u := Activate(s, attempt, operation, now).0;
    if u != s {
      UseChanges(s, attempt, operation, now);
      var i := Newest(s.approvals, attempt, now);
      SpendOne(s.approvals, s.receipts, i, attempt, operation, now);
      hide Newest;
      if s.approvals[i].status.Consumed? { ConsumedWasUsed(s.approvals, i); }
    }
  }

  lemma ConsumedWasUsed(approvals: seq<Approval>, i: nat)
    requires AllOneTime(approvals) && i < |approvals| && approvals[i].status.Consumed?
    ensures approvals[i].used == Some(1)
  {
    assert OneTime(approvals[i]);
  }

  lemma EnsureKeeps(s: State, e: Event)
    requires Sound(s) && e.Ensure?
    ensures Sound(Next(s, e)) && Onward(s, Next(s, e))
  {
    hide Valid;
    var u := Next(s, e);
    if u != s {
      forall k | 0 <= k < |s.receipts| && s.receipts[k].approval.Some? ensures Backed(u.approvals, s.receipts[k]) {
        var j :| 0 <= j < |s.approvals| && WrittenUnder(s.approvals[j], s.receipts[k]);
        assert WrittenUnder(u.approvals[j], s.receipts[k]);
      }
      assert forall i :: 0 <= i < |s.approvals| ==> s.approvals[i].id != e.id;
    }
  }

  lemma ResolveKeeps(s: State, id: Id, approve: bool)
    requires Sound(s)
    ensures Sound(Next(s, Resolve(id, approve))) && Onward(s, Next(s, Resolve(id, approve)))
  {
    hide Valid;
    var u := Next(s, Resolve(id, approve));
    assert forall i :: 0 <= i < |s.approvals| ==> u.approvals[i].status.Consumed? == s.approvals[i].status.Consumed?
                                                  && (s.approvals[i].status.Consumed? ==>
                                                      u.approvals[i] == s.approvals[i])
                                                  && u.approvals[i].id == s.approvals[i].id && OneTime(u.approvals[i]);
    forall k | 0 <= k < |s.receipts| && s.receipts[k].approval.Some? ensures Backed(u.approvals, s.receipts[k]) {
      var j :| 0 <= j < |s.approvals| && WrittenUnder(s.approvals[j], s.receipts[k]);
      assert WrittenUnder(u.approvals[j], s.receipts[k]);
    }
  }

  lemma OtherReceiptKeeps(s: State, operation: nat)
    requires Sound(s)
    ensures Sound(Next(s, OtherReceipt(operation))) && Onward(s, Next(s, OtherReceipt(operation)))
  {
    hide Valid, AllOneTime;
    var u := Next(s, OtherReceipt(operation));
    if u != s {
      NotReceipted(s.receipts, operation);
      forall i | 0 <= i < |s.approvals| && s.approvals[i].status.Consumed? ensures Spent(s.approvals[i], u.receipts) {
        var k :| 0 <= k < |s.receipts| && WrittenUnder(s.approvals[i], s.receipts[k]);
        assert WrittenUnder(s.approvals[i], u.receipts[k]);
      }
    }
  }

  lemma NextKeeps(s: State, e: Event)
    requires Sound(s)
    ensures Sound(Next(s, e)) && Onward(s, Next(s, e))
  {
    match e
    case Transact(step) =>
      StepKeeps(s.task, step);
      hide Valid, AllOneTime, Matched, Apply;
    case Ensure(_, _, _, _, _) => EnsureKeeps(s, e);
    case Resolve(id, approve) => ResolveKeeps(s, id, approve);
    case Use(attempt, operation, now) => UseKeeps(s, attempt, operation, now);
    case OtherReceipt(operation) => OtherReceiptKeeps(s, operation);
  }

  /** In every history the allow receipts of a run and its consumed approvals belong together: each
      receipt stands under a consumed approval of exactly its attempt, each consumed approval was spent
      by a receipt, no operation is allowed twice, and what is consumed stays so. */
  lemma {:induction false} AuthorityIsAccounted(s: State, events: seq<Event>)
    requires Sound(s)
    ensures Sound(History(s, events)) && Onward(s, History(s, events))
    decreases |events|
  {
    hide Next, Sound;
    if events != [] {
      NextKeeps(s, events[0]);
      AuthorityIsAccounted(Next(s, events[0]), events[1..]);
    }
  }

  /** Once the run has passed an attempt, neither query ever allows that attempt again. */
  lemma PassedAttemptsStayDenied(s: State, events: seq<Event>, attempt: nat, operation: nat, now: int)
    requires Sound(s) && attempt < s.task.run.attempt
    ensures var u := History(s, events);
            !Inspect(u, attempt, now) && Activate(u, attempt, operation, now) == (u, Denied)
  {
    AuthorityIsAccounted(s, events);
    hide Sound, History, Newest;
  }

  /** Only a use by the running, approved attempt writes a receipt under an approval. */
  lemma ReceiptsAreWrittenByTheRunningAttempt(s: State, e: Event)
    requires Sound(s) && exists r :: r in Next(s, e).receipts && r !in s.receipts && r.approval.Some?
    ensures e.Use? && s.task.run.status.Running? && s.task.run.attempt == e.attempt
    ensures exists i ::
              && 0 <= i < |s.approvals| && s.approvals[i].external && s.approvals[i].approvedAttempt == Some(e.attempt)
              && (s.approvals[i].status.Approved? || s.approvals[i].status.Consumed?)
  {
    hide Sound, Apply, Activate;
    if e.Use? { UseChanges(s, e.attempt, e.operation, e.now); }
  }

  /** Both queries agree in every reachable state, and the raced answer never occurs; the one exception
      is an operation that already has an allow receipt under another approval, where activation throws. */
  lemma InspectAndActivateAgree(s: State, attempt: nat, operation: nat, now: int)
    requires Sound(s)
    ensures var o := Activate(s, attempt, operation, now).1;
            && !o.Raced? && (o.Denied? <==> !Inspect(s, attempt, now))
            && (o.Conflict? <==>
                  Inspect(s, attempt, now) && Receipted(s.receipts, operation)
                  && !HasReceipt(s.receipts, s.approvals[Newest(s.approvals, attempt, now)].id, operation))
  {
    var i := Newest(s.approvals, attempt, now);
    if i < |s.approvals| { assert OneTime(s.approvals[i]); }
    hide Valid, Matched, Newest, AllOneTime, Later;
  }

  // ---------------------------------------------------------------- exactly when an action is allowed

  /** An approval of this external action's attempt that was granted, used or not. */
  predicate GrantedFor(a: Approval, attempt: nat) {
    a.external && a.approvedAttempt == Some(attempt) && a.status in {Approved, Consumed}
  }

  /** Row `i` is the newest such approval. */
  predicate NewestGrant(approvals: seq<Approval>, attempt: nat, i: nat) {
    && i < |approvals| && GrantedFor(approvals[i], attempt)
    && forall k :: 0 <= k < |approvals| && GrantedFor(approvals[k], attempt) ==>
         approvals[k].requestedAt <= approvals[i].requestedAt
         && (approvals[k].requestedAt == approvals[i].requestedAt ==> approvals[k].id <= approvals[i].id)
  }

  lemma NewestIsGrant(s: State, attempt: nat, now: int)
    requires Sound(s)
    ensures var i := Newest(s.approvals, attempt, now);
            if i < |s.approvals| then NewestGrant(s.approvals, attempt, i)
            else forall k :: 0 <= k < |s.approvals| ==> !GrantedFor(s.approvals[k], attempt)
  {
    forall k | 0 <= k < |s.approvals|
      ensures Grants(s.approvals[k], attempt, now) <==> GrantedFor(s.approvals[k], attempt) {
      assert OneTime(s.approvals[k]);
    }
    hide Newest, Grants, GrantedFor, OneTime, Valid, Matched;
  }

  lemma OnlyOneNewest(approvals: seq<Approval>, attempt: nat, i: nat, k: nat)
    requires AllOneTime(approvals) && NewestGrant(approvals, attempt, i) && NewestGrant(approvals, attempt, k)
    ensures i == k
  {
    assert approvals[i].id == approvals[k].id;
  }

  /** In every reachable state: an external action is denied unless the run is running in the attempt and an
      approval of that attempt was granted. The newest one decides: an operation it has a receipt for is allowed
      again and nothing is written, one that another receipt allows is a conflict, and any other is allowed with
      a new receipt, and consumes it. */
  lemma UsesExactlyWhen(s: State, attempt: nat, operation: nat, now: int, i: nat)
    requires Sound(s) && NewestGrant(s.approvals, attempt, i)
    ensures var (u, outcome) := Activate(s, attempt, operation, now);
            var a := s.approvals[i];
            if !(s.task.run.attempt == attempt && s.task.run.status == Running) then u == s && outcome == Denied
            else if exists r :: r in s.receipts && r.operation == operation && r.approval == Some(a.id)
            then u == s && outcome == Allowed(a.id)
            else if exists r :: r in s.receipts && r.operation == operation then u == s && outcome == Conflict
            else && outcome == Allowed(a.id) && u.task == s.task
                 && u.receipts == s.receipts + [Receipt(Some(a.id), operation, attempt)]
                 && u.approvals == s.approvals[i := a.(status := Consumed, used := Some(1))]
  {
    NewestIsGrant(s, attempt, now);
    var n := Newest(s.approvals, attempt, now);
    assert n < |s.approvals|;
    OnlyOneNewest(s.approvals, attempt, i, n);
    assert OneTime(s.approvals[i]);
    RunsMeans(s.task, attempt);
    ActivateAt(s, attempt, operation, now);
    hide Newest, RunsIn, Grants, Valid, Matched, AllOneTime, NewestGrant, Activate, OneTime, Sound;
  }

  lemma ActivateAt(s: State, attempt: nat, operation: nat, now: int)
    requires var i := Newest(s.approvals, attempt, now); i < |s.approvals| && OneTime(s.approvals[i])
    ensures var i := Newest(s.approvals, attempt, now);
            var a := s.approvals[i];
            Activate(s, attempt, operation, now)
            == if !RunsIn(s.task, attempt) then (s, Denied)
               else if HasReceipt(s.receipts, a.id, operation) then (s, Allowed(a.id))
               else if Receipted(s.receipts, operation) then (s, Conflict)
               else (s.(approvals := s.approvals[i := a.(status := Consumed, used := Some(1))],
                        receipts := s.receipts + [Receipt(Some(a.id), operation, attempt)]), Allowed(a.id))
  {
    hide RunsIn, HasReceipt, Receipted;
    var i := Newest(s.approvals, attempt, now);
    var a := s.approvals[i];
    assert Grants(a, attempt, now);
    hide Newest;
    if a.status.Consumed? { assert s.approvals[i := a.(status := Consumed, used := Some(1))] == s.approvals; }
  }

  /** Of any approval row, also a reusable or expiring one: unused, it grants exactly while approved, unexpired, and
      made for one use or reusable with uses left; once used, exactly while approved or consumed. Use counts it,
      and consumes one that allows no more. */
  lemma GrantsExactlyWhen(a: Approval, attempt: nat, now: int)
    ensures a.used == Some(0) ==>
              (Grants(a, attempt, now) <==>
                 && a.external && a.approvedAttempt == Some(attempt) && a.status == Approved
                 && (a.expiresAt == None || now < a.expiresAt.value)
                 && (if a.reusable then a.maxUses != Some(0) else a.maxUses == Some(1)))
    ensures a.used.Some? && a.used.value > 0 ==>
              (Grants(a, attempt, now) <==> GrantedFor(a, attempt))
    ensures a.used.None? ==> !Grants(a, attempt, now)
    ensures Used(a) == a.(used := Some(1), status := if a.maxUses in {Some(0), Some(1)} then Consumed else Approved)
  {
  }

  /** Without a granted approval every action is denied. */
  lemma UngrantedIsDenied(s: State, attempt: nat, operation: nat, now: int)
    requires Sound(s) && forall k :: 0 <= k < |s.approvals| ==> !GrantedFor(s.approvals[k], attempt)
    ensures Activate(s, attempt, operation, now) == (s, Denied)
  {
    NewestIsGrant(s, attempt, now);
    hide Newest, RunsIn, Valid, Matched, AllOneTime, GrantedFor;
  }

  lemma RunsMeans(t: Task, attempt: nat)
    requires Valid(t)
    ensures RunsIn(t, attempt) <==> t.run.attempt == attempt && t.run.status == Running
  {
    assert Coherent(t);
    hide Valid;
  }

  /** A request is recorded, pending and unused, unless one is pending; an answer reaches only the pending
      request it names. */
  lemma AsksAndAnswers(s: State, id: Id, now: int, external: bool, target: nat, attempt: Option<nat>, approve: bool,
                       k: nat)
    ensures var u := Next(s, Ensure(id, now, external, target, attempt));
            if exists a :: a in s.approvals && (a.status == Pending || a.id == id) then u == s
            else && |u.approvals| == |s.approvals| + 1 && u == s.(approvals := u.approvals)
                 && u.approvals[..|s.approvals|] == s.approvals
                 && var a := u.approvals[|s.approvals|];
                    && (a.id, a.requestedAt, a.external, a.target, a.approvedAttempt)
                       == (id, now, external, target, attempt)
                    && a.status == Pending && OneTime(a)
    ensures k < |s.approvals| ==>
              var u, a := Next(s, Resolve(id, approve)), s.approvals[k];
              && u == s.(approvals := u.approvals) && |u.approvals| == |s.approvals|
              && u.approvals[k] == if a.status == Pending && a.id == id
                 then a.(status := if approve then Approved else Rejected) else a
  {
    assert AnyPending(s.approvals) || Known(s.approvals, id)
      <==> exists a :: a in s.approvals && (a.status == Pending || a.id == id);
  }

  // ---------------------------------------------------------------- the exception is reachable

  /** Nothing approved yet, and the run in its first attempt. */
  function Unapproved(): State {
    State(Created(), [], [])
  }

  function Granted(id: Id): seq<Event> {
    [Ensure(id, id, true, id, Some(1)), Resolve(id, true)]
  }

  /** Approve the first attempt, use operation 5, and approve the attempt a second time. */
  function UseThenApproveAgain(): seq<Event> {
    Granted(1) + [Use(1, 5, 9)] + Granted(2)
  }

  function FirstApproval(): Approval {
    Requested(1, 1, true, 1, Some(1)).(status := Consumed, used := Some(1))
  }

  function SecondApproval(): Approval {
    Requested(2, 2, true, 2, Some(1)).(status := Approved)
  }

  lemma FirstUse(t: Task, a: Approval)
    requires RunsIn(t, 1) && a == Requested(1, 1, true, 1, Some(1)).(status := Approved)
    ensures Activate(State(t, [a], []), 1, 5, 9) == (State(t, [FirstApproval()], [Receipt(Some(1), 5, 1)]), Allowed(1))
  {
    assert [a][..0] == [];
    assert Newest([a][..0], 1, 9) == 0 && Grants(a, 1, 9);
    assert Newest([a], 1, 9) == 0;
    assert Inspect(State(t, [a], []), 1, 9);
    assert Used(a) == FirstApproval() && [a][0 := Used(a)] == [FirstApproval()];
    assert [] + [Receipt(Some(1), 5, 1)] == [Receipt(Some(1), 5, 1)];
    hide Newest, Inspect, RunsIn;
  }

  lemma SecondIsNewest()
    ensures Newest([FirstApproval(), SecondApproval()], 1, 9) == 1
  {
    var rows := [FirstApproval(), SecondApproval()];
    assert Grants(rows[1], 1, 9) && Later(rows[1], rows[0]);
  }

  lemma {:induction false} HistoryAppend(s: State, a: seq<Event>, b: seq<Event>)
    ensures History(s, a + b) == History(History(s, a), b)
    decreases |a|
  {
    hide Next;
    if a == [] {
      assert a + b == b;
    } else {
      assert (a + b)[0] == a[0] && (a + b)[1..] == a[1..] + b;
      HistoryAppend(Next(s, a[0]), a[1..], b);
    }
  }

  lemma Granting(t: Task, approvals: seq<Approval>, receipts: seq<Receipt>, id: Id)
    requires !AnyPending(approvals) && !Known(approvals, id)
    ensures History(State(t, approvals, receipts), Granted(id))
            == State(t, approvals + [Requested(id, id, true, id, Some(1)).(status := Approved)], receipts)
  {
    var s := State(t, approvals, receipts);
    var e, f := Granted(id)[0], Granted(id)[1];
    var mid := Next(s, e);
    assert mid == State(t, approvals + [Requested(id, id, true, id, Some(1))], receipts);
    assert Next(mid, f).approvals == approvals + [Requested(id, id, true, id, Some(1)).(status := Approved)] by {
      assert forall i :: 0 <= i < |approvals| ==> approvals[i].id != id;
    }
    assert [e, f][1..] == [f] && [f][1..] == [];
    assert History(mid, [f]) == History(Next(mid, f), []);
  }

  /** A reachable state in which inspection allows the running attempt and activation throws. */
  lemma ConflictIsReachable()
    ensures var s := History(Unapproved(), UseThenApproveAgain());
            Inspect(s, 1, 9) && Activate(s, 1, 5, 9) == (s, Conflict)
  {
    var t := Created();
    assert RunsIn(t, 1);
    hide Created, RunsIn, Newest;
    var one := Requested(1, 1, true, 1, Some(1)).(status := Approved);
    var used := State(t, [FirstApproval()], [Receipt(Some(1), 5, 1)]);
    Granting(t, [], [], 1);
    assert [] + [one] == [one];
    FirstUse(t, one);
    Granting(t, [FirstApproval()], used.receipts, 2);
    assert [FirstApproval()] + [SecondApproval()] == [FirstApproval(), SecondApproval()];
    assert [Use(1, 5, 9)][1..] == [];
    assert History(State(t, [one], []), [Use(1, 5, 9)]) == History(used, []);
    HistoryAppend(Unapproved(), Granted(1), [Use(1, 5, 9)]);
    HistoryAppend(Unapproved(), Granted(1) + [Use(1, 5, 9)], Granted(2));
    SecondIsNewest();
    hide History;
    var s := State(t, [FirstApproval(), SecondApproval()], used.receipts);
    assert used.receipts[0] in s.receipts;
    assert Receipted(s.receipts, 5) && !HasReceipt(s.receipts, 2, 5);
  }

  // ---------------------------------------------------------------- the stored rows

  /** The row that `ORDER BY requested_at DESC, id DESC LIMIT 1` selects. */
  method SelectNewest(approvals: seq<Approval>, attempt: nat, now: int) returns (i: nat)
    ensures i == Newest(approvals, attempt, now)
  {
    i := 0;
    var n := 0;
    while n < |approvals|
      invariant n <= |approvals| && i == Newest(approvals[..n], attempt, now)
    {
      assert approvals[..n + 1][..n] == approvals[..n];
      if Grants(approvals[n], attempt, now) {
        if i == n || Later(approvals[n], approvals[i]) { i := n; }
      } else if i == n {
        i := n + 1;
      }
      n := n + 1;
    }
    assert approvals[..n] == approvals;
  }

  /** The statements of activation on the rows of one run. */
  method ActivateRows(s: State, attempt: nat, operation: nat, now: int) returns (u: State, outcome: Outcome)
    ensures (u, outcome) == Activate(s, attempt, operation, now) && u.task == s.task
  {
    hide Newest, RunsIn, Usable, Grants, Later;
    u := s;
    if !RunsIn(s.task, attempt) { return s, Denied; }
    var i := SelectNewest(s.approvals, attempt, now);
    if i == |s.approvals| { return s, Denied; }
    var a := s.approvals[i];
    if a.digest.None? { return s, Denied; }
    if HasReceipt(s.receipts, a.id, operation) { return s, Allowed(a.id); }
    if a.used == Some(0) {
      if !a.status.Approved? || !Usable(a, now) { return s, Raced; }
      var status := if a.maxUses.Some? && a.maxUses.value <= 1 then Consumed else Approved;
      u := u.(approvals := u.approvals[i := a.(used := Some(1), status := status)]);
    }
    if Receipted(s.receipts, operation) { return s, Conflict; }
    u := u.(receipts := u.receipts + [Receipt(Some(a.id), operation, attempt)]);
    outcome := Allowed(a.id);
  }

  class Approvals {
    var approvals: seq<Approval>
    var receipts: seq<Receipt>

    ghost function View(t: Task): State
      reads this
    {
      State(t, approvals, receipts)
    }

    constructor ()
      ensures approvals == [] && receipts == []
    {
      approvals, receipts := [], [];
    }

    method EnsureApprovalRequest(t: Task, id: Id, now: int, external: bool, target: nat, approvedAttempt: Option<nat>)
      returns (created: bool)
      requires !Known(approvals, id)
      modifies this`approvals
      ensures View(t) == Next(old(View(t)), Ensure(id, now, external, target, approvedAttempt))
      ensures created == !AnyPending(old(approvals))
    {
      if AnyPending(approvals) { return false; }
      approvals := approvals
        + [Approval(id, now, external, target, approvedAttempt, Pending, Some(0), false, Some(1), None, Some(id))];
      created := true;
    }

    method ActivateExternalAction(t: Task, attempt: nat, operation: nat, now: int) returns (outcome: Outcome)
      requires Sound(View(t))
      modifies this
      ensures (View(t), outcome) == Activate(old(View(t)), attempt, operation, now)
      ensures Sound(View(t))
    {
      hide Activate, Sound;
      UseKeeps(View(t), attempt, operation, now);
      var rows;
      rows, outcome := ActivateRows(State(t, approvals, receipts), attempt, operation, now);
      approvals, receipts := rows.approvals, rows.receipts;
    }
  }
}
