/** Checks of a run bound to the receipts of the operations that produced them, and the completion gate
    that re-checks the binding. */
module Evidence {
  import opened Wrappers
  import opened TaskRun

  type Key = nat
  type Id = nat

  // ---------------------------------------------------------------- trimming

  predicate Space(c: char) {
    c in " \t\n\r"
  }

  function TrimStart(s: string): string {
    if s != "" && Space(s[0]) then TrimStart(s[1..]) else s
  }

  function TrimEnd(s: string): string {
    if s != "" && Space(s[|s| - 1]) then TrimEnd(s[..|s| - 1]) else s
  }

  function Trim(s: string): string {
    TrimEnd(TrimStart(s))
  }

  lemma {:induction false} TrimmedEnds(s: string)
    ensures TrimEnd(TrimEnd(s)) == TrimEnd(s)
    ensures s != "" && !Space(s[0]) ==> TrimEnd(s) != "" && TrimEnd(s)[0] == s[0]
  {
    if s != "" && Space(s[|s| - 1]) { TrimmedEnds(s[..|s| - 1]); }
  }

  lemma {:induction false} TrimmedStarts(s: string)
    ensures TrimStart(s) == "" || !Space(TrimStart(s)[0])
  {
    if s != "" && Space(s[0]) { TrimmedStarts(s[1..]); }
  }

  lemma TrimIsIdempotent(s: string)
    ensures Trim(Trim(s)) == Trim(s)
  {
    TrimmedStarts(s);
    TrimmedEnds(TrimStart(s));
    assert TrimStart("") == "" && TrimEnd("") == "";
  }

  // ---------------------------------------------------------------- rows

  datatype OpStatus = OpRunning | Succeeded | OpFailed | OpCancelled | OutcomeUnknown

  /** `command` is the payload's command, if it is text; `result` says whether the exit code is 0, once
      there is a result; `completedAt` is 0 until then. */
  datatype Operation = Operation(
    bash: bool, attempt: nat, command: Option<string>, status: OpStatus, result: Option<bool>, completedAt: nat)

  datatype CheckStatus = CheckPassed | CheckPending | CheckFailed

  datatype Check = Check(
    status: CheckStatus, required: bool, stale: bool, command: string, blankEvidence: bool, source: Option<Id>,
      observedAt: nat)

  datatype State = State(task: Task, ops: map<Id, Operation>, checks: map<Key, Check>)

  predicate Terminal(status: OpStatus) {
    !status.OpRunning?
  }

  // ---------------------------------------------------------------- binding and gate

  function Command(o: Operation): string {
    if o.command.Some? then Trim(o.command.value) else ""
  }

  predicate Successful(o: Operation) {
    o.bash && o.status.Succeeded? && o.completedAt != 0 && o.result == Some(true) && Command(o) != ""
  }

  /** `bindTrustedCheckEvidence`; None where it throws. */
  function Bind(s: State, c: Check): Option<Check> {
    if !c.status.CheckPassed? || c.source.None? then Some(c.(source := None, observedAt := 0))
    else if c.source.value !in s.ops then None
    else
      var o := s.ops[c.source.value];
      if o.attempt != s.task.run.attempt || !Successful(o) then None
      else Some(c.(command := Command(o), blankEvidence := false, stale := false, observedAt := o.completedAt))
  }

  /** The gate's own re-check of a required check. */
  predicate Trusted(s: State, c: Check) {
    && c.status.CheckPassed? && !c.stale && c.source.Some? && c.observedAt != 0 && !c.blankEvidence
    && c.source.value in s.ops
    && var o := s.ops[c.source.value];
       && o.attempt == s.task.run.attempt && o.bash && o.status.Succeeded? && o.completedAt == c.observedAt
       && o.result == Some(true) && o.command.Some? && Trim(o.command.value) == Trim(c.command)
  }

  /** The required checks that keep a strict gate closed. */
  function Failing(s: State): set<Key> {
    set k | k in s.checks && s.checks[k].required && !Trusted(s, s.checks[k])
  }

  // ---------------------------------------------------------------- histories

  datatype Event =
    | Transact(step: Step)
    | Upsert(key: Key, check: Check)
    | MarkStale
    | ClaimOperation(id: Id, bash: bool, attempt: nat, command: Option<string>)
    | UpdateOperation(id: Id, status: OpStatus, result: Option<bool>, at: nat)

  function Staled(checks: map<Key, Check>): map<Key, Check> {
    map k | k in checks :: if checks[k].status.CheckPassed? then checks[k].(stale := true) else checks[k]
  }

  /** A terminal operation is not rewritten; the result stays unless a new one is given. */
  function Updated(o: Operation, status: OpStatus, result: Option<bool>, at: nat): Operation {
    if Terminal(o.status) then o
    else o.(status := status, result := if result.Some? then result else o.result, completedAt := if Terminal(status)
            then at else 0)
  }

  function Next(s: State, e: Event): State {
    match e
    case Transact(step) => s.(task := Apply(s.task, step))
    case Upsert(key, check) =>
      var b := Bind(s, check);
      if b.None? then s else s.(checks := s.checks[key := b.value])
    case MarkStale => s.(checks := Staled(s.checks))
    case ClaimOperation(id, bash, attempt, command) =>
      if id in s.ops then s else s.(ops := s.ops[id := Operation(bash, attempt, command, OpRunning, None, 0)])
    case UpdateOperation(id, status, result, at) =>
      if id in s.ops then s.(ops := s.ops[id := Updated(s.ops[id], status, result, at)]) else s
  }

  function History(s: State, events: seq<Event>): State
    decreases |events|
  {
    if events == [] then s else History(Next(s, events[0]), events[1..])
  }

  /** A stored check with a source is what a successful operation of an attempt not later than the
      current one showed. */
  predicate BoundTo(ops: map<Id, Operation>, attempt: nat, c: Check) {
    c.source.Some? ==>
      && c.status.CheckPassed? && !c.blankEvidence && c.source.value in ops
      && var o := ops[c.source.value];
         Successful(o) && o.attempt <= attempt && c.observedAt == o.completedAt && c.command == Command(o)
  }

  ghost predicate Bound(s: State) {
    Valid(s.task) && forall k :: k in s.checks ==> BoundTo(s.ops, s.task.run.attempt, s.checks[k])
  }

  lemma NextBound(s: State, e: Event)
    requires Bound(s)
    ensures Bound(Next(s, e)) && s.task.run.attempt <= Next(s, e).task.run.attempt
  {
    hide Command, Apply, Valid, Trim;
    if e.Transact? { StepKeeps(s.task, e.step); }
  }

  lemma {:induction false} HistoryBound(s: State, events: seq<Event>)
    requires Bound(s)
    ensures Bound(History(s, events)) && s.task.run.attempt <= History(s, events).task.run.attempt
    decreases |events|
  {
    hide Next, Bound;
    if events != [] {
      NextBound(s, events[0]);
      HistoryBound(Next(s, events[0]), events[1..]);
    }
  }

  /** For a check bound to a source the gate's trust re-check succeeds if and only if the check is not
      stale and its operation belongs to the run's current attempt. */
  lemma TrustedExactlyWhen(s: State, key: Key)
    requires Bound(s) && key in s.checks && s.checks[key].source.Some?
    ensures s.checks[key].source.value in s.ops
    ensures Trusted(s, s.checks[key]) <==>
              !s.checks[key].stale && s.ops[s.checks[key].source.value].attempt == s.task.run.attempt
  {
    hide Trim, Valid;
    var c := s.checks[key];
    assert BoundTo(s.ops, s.task.run.attempt, c);
    var o := s.ops[c.source.value];
    TrimIsIdempotent(if o.command.Some? then o.command.value else "");
  }

  /** Of any stored check, however it came to be: trusted exactly if it passed, is neither stale nor without evidence,
      and its operation shows what it says: the same time, and the same command up to blanks. */
  lemma TrustedInColumns(s: State, c: Check)
    ensures Trusted(s, c) <==>
              && c.status == CheckPassed && !c.stale && !c.blankEvidence && c.source.Some?
              && c.source.value in s.ops && s.ops[c.source.value].command.Some?
              && Trim(s.ops[c.source.value].command.value) == Trim(c.command)
              && c.observedAt == s.ops[c.source.value].completedAt
              && (if Trim(c.command) == "" then Untold(s, c.source.value) else Shows(s, c.source.value))
  {
    if c.source.Some? && c.source.value in s.ops && s.ops[c.source.value].command.Some? {
      BlankCommand(s.ops[c.source.value].command.value);
    }
    hide Trim;
  }

  /** As `Shows`, of an operation with a blank command. */
  predicate Untold(s: State, source: Id)
    requires source in s.ops
  {
    var o := s.ops[source];
    && o.attempt == s.task.run.attempt && o.bash && o.status == Succeeded && o.completedAt > 0 && o.result == Some(true)
  }

  /** The required checks that are unbound, stale, or of another attempt. */
  function Unconfirmed(s: State): set<Key> {
    set k | k in s.checks && s.checks[k].required &&
            (var c := s.checks[k];
             c.source.None? || c.stale || c.source.value !in s.ops
               || s.ops[c.source.value].attempt != s.task.run.attempt)
  }

  lemma FailingMeansUnconfirmed(s: State)
    requires Bound(s)
    ensures Failing(s) == Unconfirmed(s)
  {
    forall k | k in s.checks ensures k in Failing(s) <==> k in Unconfirmed(s) {
      if s.checks[k].source.Some? { TrustedExactlyWhen(s, k); }
    }
    hide Bound, Trusted;
  }

  // ---------------------------------------------------------------- binding, in columns

  /** Trimming cuts blanks, and only blanks, off both ends. */
  ghost predicate TrimsTo(s: string, t: string) {
    && (t == "" || (!Space(t[0]) && !Space(t[|t| - 1])))
    && exists a, b :: && 0 <= a <= b <= |s| && t == s[a..b]
                      && (forall i :: 0 <= i < a || b <= i < |s| ==> Space(s[i]))
  }

  lemma {:induction false} TrimStartCuts(s: string) returns (a: nat)
    ensures a <= |s| && TrimStart(s) == s[a..] && forall i :: 0 <= i < a ==> Space(s[i])
  {
    a := 0;
    if s != "" && Space(s[0]) {
      var rest := TrimStartCuts(s[1..]);
      a := rest + 1;
    }
  }

  lemma {:induction false} TrimEndCuts(s: string) returns (b: nat)
    ensures b <= |s| && TrimEnd(s) == s[..b] && forall i :: b <= i < |s| ==> Space(s[i])
    ensures TrimEnd(s) == "" || !Space(TrimEnd(s)[|TrimEnd(s)| - 1])
  {
    b := |s|;
    if s != "" && Space(s[|s| - 1]) { b := TrimEndCuts(s[..|s| - 1]); }
  }

  lemma TrimTrims(s: string)
    ensures TrimsTo(s, Trim(s))
  {
    var a := TrimStartCuts(s);
    var b := TrimEndCuts(TrimStart(s));
    TrimmedStarts(s);
    TrimmedEnds(TrimStart(s));
    assert Trim(s) == s[a..][..b] == s[a..a + b];
    forall i | a + b <= i < |s| ensures Space(s[i]) {
      assert s[i] == s[a..][i - a];
    }
  }

  /** A finished bash operation of this attempt that exited with code 0 and names its command. */
  predicate Shows(s: State, source: Id) {
    && source in s.ops && s.ops[source].attempt == s.task.run.attempt
    && s.ops[source].bash && s.ops[source].status == Succeeded && s.ops[source].completedAt > 0
    && s.ops[source].result == Some(true)
    && s.ops[source].command.Some? && exists c :: c in s.ops[source].command.value && !Space(c)
  }

  lemma BlankCommand(s: string)
    ensures Trim(s) != "" <==> exists c :: c in s && !Space(c)
  {
    TrimTrims(s);
    var a, b :| && 0 <= a <= b <= |s| && Trim(s) == s[a..b]
                && (forall i :: 0 <= i < a || b <= i < |s| ==> Space(s[i]));
    if Trim(s) != "" {
      assert s[a] == Trim(s)[0];
      assert !Space(s[a]) && s[a] in s;
    }
    if c :| c in s && !Space(c) {
      var i :| 0 <= i < |s| && s[i] == c;
      assert a <= i < b;
    }
    hide Trim;
  }

  /** A check is stored as reported, without a source, unless it passed and names one; then it is refused unless
      that operation shows it, and stored with what the operation shows. */
  lemma StoresExactlyWhen(s: State, key: Key, check: Check)
    ensures var u := Next(s, Upsert(key, check));
            if check.status == CheckPassed && check.source.Some? && !Shows(s, check.source.value) then u == s
            else && key in u.checks && u == s.(checks := s.checks[key := u.checks[key]])
                 && var c := u.checks[key];
                    && c.status == check.status && c.required == check.required
                    && if check.status == CheckPassed && check.source.Some?
                       then && c.source == check.source && !c.stale && !c.blankEvidence
                            && c.observedAt == s.ops[check.source.value].completedAt
                            && TrimsTo(s.ops[check.source.value].command.value, c.command)
                       else && c.source == None && c.observedAt == 0
                            && c.command == check.command && c.stale == check.stale
                            && c.blankEvidence == check.blankEvidence
  {
    if check.source.Some? && check.source.value in s.ops && s.ops[check.source.value].command.Some? {
      BlankCommand(s.ops[check.source.value].command.value);
      TrimTrims(s.ops[check.source.value].command.value);
    }
    hide Trim, TrimsTo;
  }

  /** Marking changes nothing but the flag of checks that passed. */
  lemma MarksStale(s: State, key: Key)
    requires key in s.checks
    ensures var u := Next(s, MarkStale);
            && u.task == s.task && u.ops == s.ops && u.checks.Keys == s.checks.Keys
            && u.checks[key] == if s.checks[key].status == CheckPassed then s.checks[key].(stale := true)
               else s.checks[key]
  {
  }

  // ---------------------------------------------------------------- distrust lasts until re-binding

  predicate NoneTrusted(s: State) {
    forall k :: k in s.checks ==> !Trusted(s, s.checks[k])
  }

  /** Nothing but a new binding can make a check trusted. */
  predicate Distrusted(s: State) {
    forall k :: k in s.checks ==>
      var c := s.checks[k];
      !c.status.CheckPassed? || c.stale || c.source.None?
      || (c.source.value in s.ops && s.ops[c.source.value].attempt < s.task.run.attempt)
  }

  lemma DistrustedMeansNone(s: State)
    requires Distrusted(s)
    ensures NoneTrusted(s)
  {
    hide Trim;
  }

  lemma AdvancingDistrusts(s: State, step: Step)
    requires Bound(s) && s.task.run.attempt < Apply(s.task, step).run.attempt
    ensures Distrusted(Next(s, Transact(step)))
  {
    hide Apply, Valid, Successful, Command;
    forall k | k in s.checks && s.checks[k].source.Some?
      ensures s.ops[s.checks[k].source.value].attempt <= s.task.run.attempt {
      assert BoundTo(s.ops, s.task.run.attempt, s.checks[k]);
    }
  }

  lemma StalingDistrusts(s: State)
    ensures Distrusted(Next(s, MarkStale))
  {
  }

  lemma NextDistrusted(s: State, e: Event)
    requires Bound(s) && Distrusted(s) && !e.Upsert?
    ensures Distrusted(Next(s, e))
  {
    hide Apply, Valid, Successful, Command;
    if e.Transact? { StepKeeps(s.task, e.step); }
  }

  /** After the attempt has advanced, or the checks were marked stale, no check is trusted and every
      required check keeps the gate closed, through any history without a new binding. */
  lemma {:induction false} DistrustLastsUntilRebound(s: State, events: seq<Event>)
    requires Bound(s) && Distrusted(s) && forall i :: 0 <= i < |events| ==> !events[i].Upsert?
    ensures var u := History(s, events);
            NoneTrusted(u) && Failing(u) == set k | k in u.checks && u.checks[k].required
    decreases |events|
  {
    if events != [] {
      NextDistrusted(s, events[0]);
      NextBound(s, events[0]);
      hide Next, Bound, Distrusted, Trusted, NoneTrusted, Failing;
      DistrustLastsUntilRebound(Next(s, events[0]), events[1..]);
    } else {
      DistrustedMeansNone(s);
      hide Trusted;
    }
  }

  // ---------------------------------------------------------------- the stored rows

  class Checks {
    var ops: map<Id, Operation>
    var checks: map<Key, Check>

    ghost function View(t: Task): State
      reads this
    {
      State(t, ops, checks)
    }

    /** Bind first; a passed check that names no successful operation of this attempt is refused. */
    method UpsertCheck(t: Task, key: Key, check: Check) returns (stored: bool)
      requires Bound(View(t))
      modifies this`checks
      ensures View(t) == Next(old(View(t)), Upsert(key, check)) && Bound(View(t))
      ensures stored <==> Bind(old(View(t)), check).Some?
    {
      NextBound(View(t), Upsert(key, check));
      hide Bound, Command;
      var bound := check.(source := None, observedAt := 0);
      if check.status.CheckPassed? && check.source.Some? {
        if check.source.value !in ops { return false; }
        var o := ops[check.source.value];
        if o.attempt != t.run.attempt { return false; }
        if !o.bash || !o.status.Succeeded? || o.completedAt == 0 || o.result.None? { return false; }
        var command := Command(o);
        if command == "" || !o.result.value { return false; }
        bound := check.(command := command, blankEvidence := false, stale := false, observedAt := o.completedAt);
      }
      checks := checks[key := bound];
      stored := true;
    }

    method MarkChecksStale(t: Task)
      requires Bound(View(t))
      modifies this`checks
      ensures View(t) == Next(old(View(t)), MarkStale) && Bound(View(t)) && NoneTrusted(View(t))
    {
      NextBound(View(t), MarkStale);
      StalingDistrusts(View(t));
      DistrustedMeansNone(Next(View(t), MarkStale));
      hide Bound, Trusted, Distrusted;
      checks := map k | k in checks :: if checks[k].status.CheckPassed? then checks[k].(stale := true) else checks[k];
    }

    /** The loop of `evaluateGate` over the required checks. */
    method FailingChecks(t: Task) returns (failing: set<Key>)
      ensures failing == Failing(View(t))
      ensures Bound(View(t)) ==> failing == Unconfirmed(View(t))
    {
      hide Bound, Trusted, Unconfirmed;
      if Bound(View(t)) { FailingMeansUnconfirmed(View(t)); }
      failing := {};
      var todo := checks.Keys;
      while todo != {}
        invariant todo <= checks.Keys
        invariant failing == set k | k in checks && k !in todo && checks[k].required && !Trusted(View(t), checks[k])
        decreases |todo|
      {
        var k :| k in todo;
        var c := checks[k];
        if c.required && !Trusted(State(t, ops, checks), c) { failing := failing + {k}; }
        todo := todo - {k};
      }
    }
  }
}
