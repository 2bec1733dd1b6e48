/** Consumers of a run's event log: their cursors are updated incrementally and must agree with the log. */
module EventFeed {
  import opened Wrappers
  import opened TaskRun

  type ConsumerId = nat

  datatype Cursor = Cursor(generation: nat, acked: nat, settled: nat, final: nat)

  datatype Verdict = Stale | Invalid | Accepted

  /** The event types of the two derived cursors. */
  predicate Counts(kind: EventKind, final: bool) {
    kind.RunCompleted? || kind.RunCancelled? || (!final && (kind.RunBlocked? || kind.RunFailed?))
  }

  /** The greatest seq up to `upto` of an event of those types, in the whole log; 0 if there is none. */
  function Greatest(log: seq<EventRow>, upto: nat, final: bool): nat {
    if log == [] then 0
    else
      var rest := Greatest(log[..|log| - 1], upto, final);
      var last := log[|log| - 1];
      if Counts(last.kind, final) && rest < last.seqNo <= upto then last.seqNo else rest
  }

  lemma {:induction false} GreatestIsGreatest(log: seq<EventRow>, upto: nat, final: bool)
    ensures var g := Greatest(log, upto, final);
            && (forall i :: 0 <= i < |log| && Counts(log[i].kind, final) && log[i].seqNo <= upto ==> log[i].seqNo <= g)
            && (g == 0 || exists i :: 0 <= i < |log| && Counts(log[i].kind, final) && log[i].seqNo == g && g <= upto)
  {
    if log != [] {
      var n := |log| - 1;
      GreatestIsGreatest(log[..n], upto, final);
      var rest := Greatest(log[..n], upto, final);
      if rest != 0 {
        var i :| 0 <= i < |log[..n]| && Counts(log[..n][i].kind, final) && log[..n][i].seqNo == rest && rest <= upto;
        assert log[i].seqNo == rest && Counts(log[i].kind, final);
      }
      forall i | 0 <= i < |log| && Counts(log[i].kind, final) && log[i].seqNo <= upto
        ensures log[i].seqNo <= Greatest(log, upto, final)
      {
        if i < n { assert log[..n][i] == log[i]; }
      }
    }
  }

  /** Later events do not change what was greatest among those already acknowledged. */
  lemma {:induction false} GreatestOfPrefix(log: seq<EventRow>, more: seq<EventRow>, upto: nat, final: bool)
    requires log <= more && forall i :: |log| <= i < |more| ==> upto < more[i].seqNo
    ensures Greatest(more, upto, final) == Greatest(log, upto, final)
    decreases |more|
  {
    if |log| < |more| {
      GreatestOfPrefix(log, more[..|more| - 1], upto, final);
    } else {
      assert log == more;
    }
  }

  /** The newest event of those types in (after, upto], if any, is the greatest; otherwise nothing changes. */
  lemma GreatestStep(log: seq<EventRow>, after: nat, upto: nat, final: bool, found: Option<nat>)
    requires after <= upto
    requires match found
             case None => forall i :: 0 <= i < |log| && Counts(log[i].kind, final) ==> !(after < log[i].seqNo <= upto)
             case Some(s) =>
               && after < s <= upto
               && (exists i :: 0 <= i < |log| && Counts(log[i].kind, final) && log[i].seqNo == s)
               && (forall i :: 0 <= i < |log| && Counts(log[i].kind, final) && log[i].seqNo <= upto ==>
                     log[i].seqNo <= s)
    ensures Greatest(log, upto, final) == if found.Some? then found.value else Greatest(log, after, final)
  {
    GreatestIsGreatest(log, upto, final);
    GreatestIsGreatest(log, after, final);
    hide Greatest;
  }

  // ---------------------------------------------------------------- the specification

  datatype Feed = Feed(task: Task, cursors: map<ConsumerId, Cursor>)

  datatype Event =
    | Transact(step: Step)
    | ClaimConsumer(consumer: ConsumerId)
    | Ack(consumer: ConsumerId, generation: nat, upto: int)

  function Judge(f: Feed, consumer: ConsumerId, generation: nat, upto: int): Verdict {
    if consumer !in f.cursors || f.cursors[consumer].generation != generation then Stale
    else if upto < f.cursors[consumer].acked || f.task.run.lastSeq < upto then Invalid
    else Accepted
  }

  function Acked(log: seq<EventRow>, generation: nat, upto: nat): Cursor {
    Cursor(generation, upto, Greatest(log, upto, false), Greatest(log, upto, true))
  }

  function TakenOver(cursors: map<ConsumerId, Cursor>, consumer: ConsumerId): map<ConsumerId, Cursor> {
    cursors[consumer := if consumer in cursors then cursors[consumer].(generation := cursors[consumer].generation + 1)
                        else Cursor(1, 0, 0, 0)]
  }

  function Next(f: Feed, e: Event): Feed {
    match e
    case Transact(step) => f.(task := Apply(f.task, step))
    case ClaimConsumer(consumer) => f.(cursors := TakenOver(f.cursors, consumer))
    case Ack(consumer, generation, upto) =>
      if !Judge(f, consumer, generation, upto).Accepted? || upto < 0 then f
      else f.(cursors := f.cursors[consumer := Acked(f.task.events, generation, upto)])
  }

  function History(f: Feed, events: seq<Event>): Feed
    decreases |events|
  {
    if events == [] then f else History(Next(f, events[0]), events[1..])
  }

  /** Every cursor stands inside the log and both derived cursors are what the whole log says. */
  ghost predicate Right(log: seq<EventRow>, cursors: map<ConsumerId, Cursor>) {
    forall c :: c in cursors ==>
      cursors[c].acked <= |log| && cursors[c] == Acked(log, cursors[c].generation, cursors[c].acked)
  }

  ghost predicate Forward(f: Feed, g: Feed) {
    forall c :: c in f.cursors ==>
      c in g.cursors && f.cursors[c].acked <= g.cursors[c].acked && f.cursors[c].generation <= g.cursors[c].generation
  }

  lemma LogGrows(log: seq<EventRow>, more: seq<EventRow>, cursors: map<ConsumerId, Cursor>)
    requires Right(log, cursors) && log <= more
    requires forall i :: 0 <= i < |more| ==> more[i].seqNo == i + 1
    ensures Right(more, cursors)
  {
    forall c | c in cursors
      ensures cursors[c].acked <= |more| && cursors[c] == Acked(more, cursors[c].generation, cursors[c].acked) {
      GreatestOfPrefix(log, more, cursors[c].acked, false);
      GreatestOfPrefix(log, more, cursors[c].acked, true);
    }
  }

  lemma EmptyCursor(log: seq<EventRow>, final: bool)
    requires forall i :: 0 <= i < |log| ==> log[i].seqNo == i + 1
    ensures Greatest(log, 0, final) == 0
  {
    GreatestIsGreatest(log, 0, final);
  }

  lemma TransactRight(f: Feed, step: Step)
    requires Valid(f.task) && Right(f.task.events, f.cursors)
    ensures var g := Next(f, Transact(step));
            Valid(g.task) && Right(g.task.events, g.cursors) && Forward(f, g) && Progress(f.task, g.task)
  {
    StepKeeps(f.task, step);
    assert Dense(f.task) && Dense(Apply(f.task, step));
    hide Greatest, Apply, Valid, Right;
    LogGrows(f.task.events, Apply(f.task, step).events, f.cursors);
  }

  lemma TakenOverRight(log: seq<EventRow>, cursors: map<ConsumerId, Cursor>, consumer: ConsumerId)
    requires Right(log, cursors) && forall i :: 0 <= i < |log| ==> log[i].seqNo == i + 1
    ensures Right(log, TakenOver(cursors, consumer))
  {
    hide Greatest;
    EmptyCursor(log, false);
    EmptyCursor(log, true);
  }

  lemma AckRight(f: Feed, consumer: ConsumerId, generation: nat, upto: int)
    requires Right(f.task.events, f.cursors) && f.task.run.lastSeq == |f.task.events|
    ensures var g := Next(f, Ack(consumer, generation, upto));
            g.task == f.task && Right(g.task.events, g.cursors) && Forward(f, g)
  {
    hide Greatest;
  }

  lemma NextRight(f: Feed, e: Event)
    requires Valid(f.task) && Right(f.task.events, f.cursors)
    ensures var g := Next(f, e);
            Valid(g.task) && Right(g.task.events, g.cursors) && Forward(f, g) && Progress(f.task, g.task)
  {
    assert forall i :: 0 <= i < |f.task.events| ==> f.task.events[i].seqNo == i + 1 by { assert Dense(f.task); }
    assert f.task.run.lastSeq == |f.task.events| by { assert Dense(f.task); }
    ProgressItself(f.task);
    hide Greatest, Apply, Valid, Progress;
    match e
    case Transact(step) => TransactRight(f, step);
    case ClaimConsumer(consumer) => TakenOverRight(f.task.events, f.cursors, consumer); hide Right;
    case Ack(consumer, generation, upto) => AckRight(f, consumer, generation, upto); hide Right, Forward, Next;
  }

  /** Through every transaction, claim and acknowledgement a consumer's settled and final cursors equal
      the greatest event of those types up to its acked_seq in the whole log, and acked_seq never falls. */
  lemma {:induction false} CursorsAgreeWithTheLog(f: Feed, events: seq<Event>)
    requires Valid(f.task) && Right(f.task.events, f.cursors)
    ensures var g := History(f, events);
            Valid(g.task) && Right(g.task.events, g.cursors) && Forward(f, g) && Progress(f.task, g.task)
    decreases |events|
  {
    hide Next, Valid, Right;
    if events != [] {
      NextRight(f, events[0]);
      CursorsAgreeWithTheLog(Next(f, events[0]), events[1..]);
    }
  }

  /** Once another consumer has taken the cursor over, no acknowledgement of an earlier generation ever
      moves anything again. */
  lemma StaleGenerationsStayStale(f: Feed, events: seq<Event>, consumer: ConsumerId, generation: nat, upto: int)
    requires Valid(f.task) && Right(f.task.events, f.cursors)
    requires consumer in f.cursors && generation < f.cursors[consumer].generation
    ensures var g := History(f, events); Next(g, Ack(consumer, generation, upto)) == g
  {
    CursorsAgreeWithTheLog(f, events);
    hide Valid, Right, History, Apply;
  }

  // ---------------------------------------------------------------- what the cursors mean, in columns

  /** The run is over: no continuation will follow. */
  predicate IsFinal(kind: EventKind) {
    match kind
    case RunCompleted => true
    case RunCancelled => true
    case _ => false
  }

  /** The run has come to rest, for good or until something moves it again. */
  predicate IsSettled(kind: EventKind) {
    match kind
    case RunCompleted => true
    case RunCancelled => true
    case RunBlocked => true
    case RunFailed(_) => true
    case _ => false
  }

  /** `seqNo` is the newest such event up to `upto`, or 0 where there is none. */
  ghost predicate IsNewest(log: seq<EventRow>, upto: nat, seqNo: nat, final: bool) {
    && (forall e :: e in log && 0 < e.seqNo <= upto && (if final then IsFinal(e.kind) else IsSettled(e.kind)) ==>
          e.seqNo <= seqNo)
    && (seqNo > 0 ==> seqNo <= upto && exists e :: && e in log && e.seqNo == seqNo
                                                  && if final then IsFinal(e.kind) else IsSettled(e.kind))
  }

  lemma GreatestIsNewest(log: seq<EventRow>, upto: nat, final: bool)
    ensures IsNewest(log, upto, Greatest(log, upto, final), final)
  {
    GreatestIsGreatest(log, upto, final);
    assert forall kind :: Counts(kind, final) <==> if final then IsFinal(kind) else IsSettled(kind);
    hide Greatest, Counts, IsFinal, IsSettled;
  }

  /** An acknowledgement is believed exactly from the current generation of a known consumer, within the log and
      not behind what was acknowledged; it moves all three cursors of that consumer and nothing else. */
  lemma AcksExactlyWhen(f: Feed, consumer: ConsumerId, generation: nat, upto: int)
    ensures var g := Next(f, Ack(consumer, generation, upto));
            if && consumer in f.cursors && f.cursors[consumer].generation == generation
               && f.cursors[consumer].acked <= upto <= f.task.run.lastSeq
            then && g == f.(cursors := f.cursors[consumer := g.cursors[consumer]])
                 && g.cursors[consumer].generation == generation && g.cursors[consumer].acked == upto
                 && IsNewest(f.task.events, upto, g.cursors[consumer].settled, false)
                 && IsNewest(f.task.events, upto, g.cursors[consumer].final, true)
            else g == f
  {
    if 0 <= upto {
      GreatestIsNewest(f.task.events, upto, false);
      GreatestIsNewest(f.task.events, upto, true);
    }
    hide Greatest, IsNewest;
  }

  /** A claim starts a new generation and keeps what was acknowledged. */
  lemma ClaimsAnew(f: Feed, consumer: ConsumerId)
    ensures var g := Next(f, ClaimConsumer(consumer));
            && consumer in g.cursors && g == f.(cursors := f.cursors[consumer := g.cursors[consumer]])
            && if consumer in f.cursors
               then f.cursors[consumer].generation < g.cursors[consumer].generation
                 && g.cursors[consumer] == f.cursors[consumer].(generation := g.cursors[consumer].generation)
               else g.cursors[consumer] == Cursor(1, 0, 0, 0)
  {
  }

  // ---------------------------------------------------------------- the incremental code

  /** The newest event of those types with seq in (after, upto]. */
  method NewestBetween(log: seq<EventRow>, after: nat, upto: nat, final: bool) returns (found: Option<nat>)
    requires after <= upto <= |log| && forall i :: 0 <= i < |log| ==> log[i].seqNo == i + 1
    ensures Greatest(log, upto, final) == if found.Some? then found.value else Greatest(log, after, final)
  {
    var k: nat := upto;
    while k > after && !Counts(log[k - 1].kind, final)
      invariant after <= k <= upto
      invariant forall i :: k <= i < upto ==> !Counts(log[i].kind, final)
    {
      k := k - 1;
    }
    if k > after {
      found := Some(log[k - 1].seqNo);
    } else {
      found := None;
    }
    GreatestStep(log, after, upto, final, found);
  }

  class Consumers {
    var lastSeq: nat
    var log: seq<EventRow>
    var cursors: map<ConsumerId, Cursor>

    ghost predicate Agrees()
      reads this
    {
      && lastSeq == |log| && (forall i :: 0 <= i < |log| ==> log[i].seqNo == i + 1)
      && Right(log, cursors)
    }

    constructor (t: Task)
      requires Valid(t)
      ensures Agrees() && log == t.events && cursors == map[]
    {
      lastSeq, log, cursors := t.run.lastSeq, t.events, map[];
    }

    method Append(ordinal: nat, kind: EventKind)
      requires Agrees()
      modifies this`lastSeq, this`log
      ensures Agrees() && log == old(log) + [EventRow(old(lastSeq) + 1, ordinal, kind)]
    {
      ghost var before := log;
      log := log + [EventRow(lastSeq + 1, ordinal, kind)];
      lastSeq := lastSeq + 1;
      LogGrows(before, log, cursors);
    }

    method ClaimEventConsumer(consumer: ConsumerId)
      requires Agrees()
      modifies this`cursors
      ensures Agrees() && cursors == TakenOver(old(cursors), consumer)
    {
      EmptyCursor(log, false);
      EmptyCursor(log, true);
      if consumer in cursors {
        cursors := cursors[consumer := cursors[consumer].(generation := cursors[consumer].generation + 1)];
      } else {
        cursors := cursors[consumer := Cursor(1, 0, 0, 0)];
      }
    }

    /** Looks only at the events since the last acknowledgement, and keeps a derived cursor when there is none. */
    method AckEventConsumer(consumer: ConsumerId, generation: nat, upto: int) returns (verdict: Verdict)
      requires Agrees()
      modifies this`cursors
      ensures Agrees()
      ensures verdict == if consumer !in old(cursors) || old(cursors)[consumer].generation != generation then Stale
                         else if upto < old(cursors)[consumer].acked || lastSeq < upto then Invalid else Accepted
      ensures cursors == if verdict.Accepted? then old(cursors)[consumer := Acked(log, generation, upto)]
        else old(cursors)
    {
      if consumer !in cursors || cursors[consumer].generation != generation { return Stale; }
      var cursor := cursors[consumer];
      if upto < cursor.acked || lastSeq < upto { return Invalid; }
      var settled := NewestBetween(log, cursor.acked, upto, false);
      var final := NewestBetween(log, cursor.acked, upto, true);
      cursors := cursors[consumer := Cursor(generation, upto,
                                            if settled.Some? then settled.value else cursor.settled,
                                            if final.Some? then final.value else cursor.final)];
      verdict := Accepted;
    }
  }
}
