/** One child process as the Host sees it: which of its messages are believed, and the latch that
    reports an unexpected exit at most once. */
module GenerationSession {
  import opened Wrappers

  type RequestId = nat

  datatype Message =
    | Ready(release: nat, fence: int)
    | Heartbeat(release: nat, fence: int, sequence: int)
    | Drained(request: RequestId, fence: int)
    | Activate(request: RequestId)

  /** Everything that reaches a session: parsed messages with their generation id, exit signals, and
      the calls the Host makes on it. Malformed messages are logged and dropped before this point. */
  datatype Input =
    | Receive(generation: nat, message: Message)
    | ExitSignal(code: int)
    | SetManaged
    | AllowRecovery
    | WaitForDrained(request: RequestId)

  /** `exitReports`, `beats` and `activations` are the callbacks made so far. */
  datatype State = State(
    generation: nat, release: nat, managedExit: bool, ready: Option<int>, heartbeatSequence: int,
    exited: Option<int>, reported: bool, drained: map<RequestId, Option<int>>,
    exitReports: seq<int>, beats: seq<int>, activations: seq<RequestId>)

  function Fresh(generation: nat, release: nat): State {
    State(generation, release, false, None, 0, None, false, map[], [], [], [])
  }

  function Reported(s: State): State {
    if s.managedExit || s.exited.None? || s.reported then s
    else s.(reported := true, exitReports := s.exitReports + [s.exited.value])
  }

  function Received(s: State, m: Message): State {
    match m
    case Ready(release, fence) => if s.ready.Some? || release != s.release then s else s.(ready := Some(fence))
    case Heartbeat(release, fence, sequence) =>
      if s.ready != Some(fence) || release != s.release || sequence <= s.heartbeatSequence then s
      else s.(heartbeatSequence := sequence, beats := s.beats + [sequence])
    case Drained(request, fence) =>
      if s.ready != Some(fence) || request !in s.drained || s.drained[request].Some? then s
      else s.(drained := s.drained[request := Some(fence)])
    case Activate(request) => if s.ready.None? then s else s.(activations := s.activations + [request])
  }

  function Handled(s: State, i: Input): State {
    match i
    case Receive(generation, m) => if generation != s.generation then s else Received(s, m)
    case ExitSignal(code) => if s.exited.Some? then s else Reported(s.(exited := Some(code)))
    case SetManaged => s.(managedExit := true)
    case AllowRecovery => Reported(s.(managedExit := false))
    case WaitForDrained(request) => if request in s.drained then s else s.(drained := s.drained[request := None])
  }

  function HandledAll(s: State, inputs: seq<Input>): State
    decreases |inputs|
  {
    if inputs == [] then s else HandledAll(Handled(s, inputs[0]), inputs[1..])
  }

  // ---------------------------------------------------------------- what every run keeps

  /** The latch: the one report made is of the exit; while none is made the exit is open or managed. */
  predicate Latched(s: State) {
    && (s.reported ==> s.exited.Some? && s.exitReports == [s.exited.value])
    && (!s.reported ==> s.exitReports == [] && (s.exited.None? || s.managedExit))
  }

  predicate Believed(s: State) {
    && 0 <= s.heartbeatSequence
    && (forall i, j :: 0 <= i < j < |s.beats| ==> s.beats[i] < s.beats[j])
    && (forall i :: 0 <= i < |s.beats| ==> 0 < s.beats[i] <= s.heartbeatSequence)
    && (s.ready.None? ==> s.beats == [] && s.activations == [])
    && (forall k :: k in s.drained && s.drained[k].Some? ==> s.drained[k] == s.ready)
  }

  /** Nothing already believed is taken back. */
  predicate Extends(s: State, t: State) {
    && (s.ready.Some? ==> t.ready == s.ready)
    && (s.exited.Some? ==> t.exited == s.exited)
    && s.exitReports <= t.exitReports && s.beats <= t.beats && s.activations <= t.activations
    && (forall k :: k in s.drained && s.drained[k].Some? ==> k in t.drained && t.drained[k] == s.drained[k])
  }

  lemma HandledKeeps(s: State, i: Input)
    requires Latched(s) && Believed(s)
    ensures Latched(Handled(s, i)) && Believed(Handled(s, i)) && Extends(s, Handled(s, i))
  {
    if i.Receive? { ReceivedKeeps(s, i.message); }
  }

  lemma ReceivedKeeps(s: State, m: Message)
    requires Latched(s) && Believed(s)
    ensures Latched(Received(s, m)) && Believed(Received(s, m)) && Extends(s, Received(s, m))
  {
    if m.Heartbeat? {
      assert Believed(Received(s, m));
    }
  }

  /** Over any interleaving of messages, exit signals and Host calls an exit is reported at most once, the
      first READY believed is final, believed heartbeats rise strictly, and a drain only completes with
      the fence of that READY. */
  lemma {:induction false} SessionKeeps(s: State, inputs: seq<Input>)
    requires Latched(s) && Believed(s)
    ensures var t := HandledAll(s, inputs); Latched(t) && Believed(t) && Extends(s, t)
    decreases |inputs|
  {
    hide Handled;
    if inputs != [] {
      HandledKeeps(s, inputs[0]);
      SessionKeeps(Handled(s, inputs[0]), inputs[1..]);
    }
  }

  // ---------------------------------------------------------------- exactly when

  /** The last input is handled after all the others. */
  lemma {:induction false} HandledLast(s: State, inputs: seq<Input>)
    requires inputs != []
    ensures var n := |inputs| - 1; HandledAll(s, inputs) == Handled(HandledAll(s, inputs[..n]), inputs[n])
    decreases |inputs|
  {
    hide Handled;
    var n := |inputs| - 1;
    if n == 0 {
      assert inputs[1..] == [] && inputs[..n] == [];
    } else {
      HandledLast(Handled(s, inputs[0]), inputs[1..]);
      assert inputs[1..][..n - 1] == inputs[..n][1..];
    }
  }

  /** Somewhere the session had exited while nobody managed its exit. */
  ghost predicate SeenUnmanaged(s: State, inputs: seq<Input>) {
    exists k :: 0 <= k <= |inputs| && ExitedUnmanaged(HandledAll(s, inputs[..k]))
  }

  predicate ExitedUnmanaged(s: State) {
    s.exited.Some? && !s.managedExit
  }

  /** From creation on, an exit is reported if and only if at some point the session had exited and its
      exit was not managed: a managed exit is never reported, an unmanaged one always, once. */
  lemma {:induction false} ReportedExactlyWhen(generation: nat, release: nat, inputs: seq<Input>)
    ensures var t := HandledAll(Fresh(generation, release), inputs);
            && (t.exitReports != [] <==> SeenUnmanaged(Fresh(generation, release), inputs))
            && (t.exitReports != [] ==> t.exited.Some? && t.exitReports == [t.exited.value])
    decreases |inputs|
  {
    var s := Fresh(generation, release);
    SessionKeeps(s, inputs);
    var t := HandledAll(s, inputs);
    if inputs == [] {
      assert inputs[..0] == inputs;
      assert forall k :: 0 <= k <= |inputs| ==> inputs[..k] == [];
    } else {
      var n := |inputs| - 1;
      var before := HandledAll(s, inputs[..n]);
      ReportedExactlyWhen(generation, release, inputs[..n]);
      HandledLast(s, inputs);
      assert inputs[..n + 1] == inputs;
      SessionKeeps(s, inputs[..n]);
      ReportStep(before, inputs[n]);
      hide HandledAll, Handled;
      if SeenUnmanaged(s, inputs[..n]) {
        var k :| 0 <= k <= n && ExitedUnmanaged(HandledAll(s, inputs[..n][..k]));
        assert inputs[..n][..k] == inputs[..k];
      }
      if SeenUnmanaged(s, inputs) && !ExitedUnmanaged(t) {
        var k :| 0 <= k <= |inputs| && ExitedUnmanaged(HandledAll(s, inputs[..k]));
        assert inputs[..n][..k] == inputs[..k];
      }
    }
  }

  lemma ReportStep(s: State, i: Input)
    requires Latched(s)
    ensures Handled(s, i).exitReports != [] <==> s.exitReports != [] || ExitedUnmanaged(Handled(s, i))
  {
  }

  /** The session believes a READY if and only if one for its own generation and release arrived. */
  lemma {:induction false} ReadyExactlyWhen(generation: nat, release: nat, inputs: seq<Input>)
    ensures var t := HandledAll(Fresh(generation, release), inputs);
            && t.generation == generation && t.release == release
            && (t.ready.Some? <==> exists fence :: Receive(generation, Ready(release, fence)) in inputs)
            && (t.ready.Some? ==> Receive(generation, Ready(release, t.ready.value)) in inputs)
    decreases |inputs|
  {
    if inputs != [] {
      var n := |inputs| - 1;
      ReadyExactlyWhen(generation, release, inputs[..n]);
      HandledLast(Fresh(generation, release), inputs);
      assert inputs == inputs[..n] + [inputs[n]];
      hide HandledAll;
    }
  }

  /** Position k holds a heartbeat of the session's own release with the believed fence, numbered `n`, above every
      number believed before. */
  predicate Beats(s: State, inputs: seq<Input>, n: int, k: nat) {
    && k < |inputs| && inputs[k] == Receive(s.generation, Heartbeat(s.release, FenceBefore(s, inputs, k), n))
    && HandledAll(s, inputs[..k]).ready.Some? && 0 < n
    && forall i :: 0 <= i < |HandledAll(s, inputs[..k]).beats| ==> HandledAll(s, inputs[..k]).beats[i] < n
  }

  ghost predicate WasBeaten(s: State, inputs: seq<Input>, n: int) {
    exists k: nat :: Beats(s, inputs, n, k)
  }

  function FenceBefore(s: State, inputs: seq<Input>, k: nat): int
    requires k <= |inputs|
  {
    var t := HandledAll(s, inputs[..k]);
    if t.ready.Some? then t.ready.value else 0
  }

  /** The last number believed is the one that the next must exceed. */
  predicate LastBeat(s: State) {
    s.heartbeatSequence == if s.beats == [] then 0 else s.beats[|s.beats| - 1]
  }

  lemma BeatStep(s: State, i: Input, n: int)
    requires Believed(s) && LastBeat(s)
    ensures LastBeat(Handled(s, i))
    ensures n in Handled(s, i).beats <==>
              n in s.beats
              || (&& s.ready.Some? && i == Receive(s.generation, Heartbeat(s.release, s.ready.value, n)) && 0 < n
                  && forall j :: 0 <= j < |s.beats| ==> s.beats[j] < n)
  {
    if s.beats != [] { assert s.beats[|s.beats| - 1] == s.heartbeatSequence; }
  }

  /** A heartbeat is believed if and only if it arrives after the believed READY with its fence, from the session's
      own release, and its number exceeds every one believed before. */
  lemma {:induction false} BeatsExactlyWhen(generation: nat, release: nat, inputs: seq<Input>, n: int)
    ensures var s := Fresh(generation, release);
            && LastBeat(HandledAll(s, inputs))
            && (n in HandledAll(s, inputs).beats <==> WasBeaten(s, inputs, n))
    decreases |inputs|
  {
    var s := Fresh(generation, release);
    if inputs != [] {
      var m := |inputs| - 1;
      var before := HandledAll(s, inputs[..m]);
      BeatsExactlyWhen(generation, release, inputs[..m], n);
      ReadyExactlyWhen(generation, release, inputs[..m]);
      SessionKeeps(s, inputs[..m]);
      HandledLast(s, inputs);
      BeatStep(before, inputs[m], n);
      hide HandledAll, Handled;
      forall k | 0 <= k < m ensures Beats(s, inputs, n, k) <==> Beats(s, inputs[..m], n, k) {
        assert inputs[..m][..k] == inputs[..k] && inputs[..m][k] == inputs[k];
      }
      if WasBeaten(s, inputs[..m], n) {
        var k: nat :| Beats(s, inputs[..m], n, k);
        assert Beats(s, inputs, n, k);
      }
      if WasBeaten(s, inputs, n) && !Beats(s, inputs, n, m) {
        var k: nat :| Beats(s, inputs, n, k);
        assert Beats(s, inputs[..m], n, k);
      }
      assert Beats(s, inputs, n, m) <==>
        before.ready.Some? && inputs[m] == Receive(before.generation, Heartbeat(before.release, before.ready.value, n))
          && 0 < n && forall j :: 0 <= j < |before.beats| ==> before.beats[j] < n;
    }
  }

  /** What the exit callbacks have told: the first exit signal counts, and the exit is managed while the last word
      of the Host is. */
  function FirstExit(inputs: seq<Input>): Option<int> {
    if inputs == [] then None else if inputs[0].ExitSignal? then Some(inputs[0].code) else FirstExit(inputs[1..])
  }

  function LastWord(inputs: seq<Input>): bool {
    inputs != [] &&
    var last := inputs[|inputs| - 1];
    if last.SetManaged? then true else if last.AllowRecovery? then false else LastWord(inputs[..|inputs| - 1])
  }

  lemma {:induction false} FirstExitOfAppend(inputs: seq<Input>, i: Input)
    ensures FirstExit(inputs + [i])
         == if FirstExit(inputs).Some? then FirstExit(inputs) else if i.ExitSignal? then Some(i.code) else None
  {
    if inputs != [] {
      assert (inputs + [i])[0] == inputs[0] && (inputs + [i])[1..] == inputs[1..] + [i];
      FirstExitOfAppend(inputs[1..], i);
    }
  }

  /** The exit of a session is the first signal's, and it is managed while the Host's last word says so. */
  lemma {:induction false} ExitedExactlyWhen(generation: nat, release: nat, inputs: seq<Input>)
    ensures var t := HandledAll(Fresh(generation, release), inputs);
            t.exited == FirstExit(inputs) && t.managedExit == LastWord(inputs)
    decreases |inputs|
  {
    if inputs != [] {
      var n := |inputs| - 1;
      ExitedExactlyWhen(generation, release, inputs[..n]);
      HandledLast(Fresh(generation, release), inputs);
      FirstExitOfAppend(inputs[..n], inputs[n]);
      assert inputs == inputs[..n] + [inputs[n]];
      hide HandledAll;
    }
  }

  /** The activations of the session's own generation that arrived after the believed READY. */
  function Passed(s: State, inputs: seq<Input>): seq<RequestId> {
    if inputs == [] then []
    else
      var n := |inputs| - 1;
      Passed(s, inputs[..n])
      + if inputs[n].Receive? && inputs[n].generation == s.generation && inputs[n].message.Activate?
           && HandledAll(s, inputs[..n]).ready.Some?
        then [inputs[n].message.request] else []
  }

  /** Activations are passed on exactly as they arrive after the believed READY. */
  lemma {:induction false} ActivationsArePassed(generation: nat, release: nat, inputs: seq<Input>)
    ensures var s := Fresh(generation, release); HandledAll(s, inputs).activations == Passed(s, inputs)
    decreases |inputs|
  {
    if inputs != [] {
      var n := |inputs| - 1;
      ActivationsArePassed(generation, release, inputs[..n]);
      ReadyExactlyWhen(generation, release, inputs[..n]);
      HandledLast(Fresh(generation, release), inputs);
      hide HandledAll;
    }
  }

  /** Position k holds a DRAINED for the request with the believed fence, after the wait for it began. */
  predicate Drains(s: State, inputs: seq<Input>, request: RequestId, k: nat) {
    && k < |inputs| && inputs[k].Receive? && inputs[k].generation == s.generation && inputs[k].message.Drained?
    && inputs[k].message.request == request && HandledAll(s, inputs[..k]).ready == Some(inputs[k].message.fence)
    && WaitForDrained(request) in inputs[..k]
  }

  ghost predicate WasDrained(s: State, inputs: seq<Input>, request: RequestId) {
    exists k :: Drains(s, inputs, request, k)
  }

  lemma {:induction false} WaitedExactlyWhen(generation: nat, release: nat, inputs: seq<Input>, request: RequestId)
    ensures request in HandledAll(Fresh(generation, release), inputs).drained <==> WaitForDrained(request) in inputs
    decreases |inputs|
  {
    if inputs != [] {
      var n := |inputs| - 1;
      WaitedExactlyWhen(generation, release, inputs[..n], request);
      HandledLast(Fresh(generation, release), inputs);
      assert inputs == inputs[..n] + [inputs[n]];
      hide HandledAll;
    }
  }

  predicate Completed(s: State, request: RequestId) {
    request in s.drained && s.drained[request].Some?
  }

  lemma DrainStep(s: State, i: Input, request: RequestId)
    ensures Completed(Handled(s, i), request) <==>
              Completed(s, request)
              || (i.Receive? && i.generation == s.generation && i.message.Drained? && i.message.request == request
                  && s.ready == Some(i.message.fence) && request in s.drained)
  {
  }

  /** A drain completes if and only if a DRAINED for its request arrives with the fence of the believed
      READY, after that READY and after the wait for it began; one that arrives earlier is lost. */
  lemma {:induction false} DrainedExactlyWhen(generation: nat, release: nat, inputs: seq<Input>, request: RequestId)
    ensures Completed(HandledAll(Fresh(generation, release), inputs), request)
            <==> WasDrained(Fresh(generation, release), inputs, request)
    decreases |inputs|
  {
    var s := Fresh(generation, release);
    if inputs != [] {
      var n := |inputs| - 1;
      var before := HandledAll(s, inputs[..n]);
      DrainedExactlyWhen(generation, release, inputs[..n], request);
      ReadyExactlyWhen(generation, release, inputs[..n]);
      WaitedExactlyWhen(generation, release, inputs[..n], request);
      HandledLast(s, inputs);
      DrainStep(before, inputs[n], request);
      hide HandledAll, Handled;
      forall k | 0 <= k < n ensures Drains(s, inputs, request, k) <==> Drains(s, inputs[..n], request, k) {
        assert inputs[..n][..k] == inputs[..k] && inputs[..n][k] == inputs[k];
      }
      if WasDrained(s, inputs[..n], request) {
        var k :| Drains(s, inputs[..n], request, k);
        assert Drains(s, inputs, request, k);
      }
      if WasDrained(s, inputs, request) && !Drains(s, inputs, request, n) {
        var k :| Drains(s, inputs, request, k);
        assert Drains(s, inputs[..n], request, k);
      }
      assert Drains(s, inputs, request, n) <==>
        inputs[n].Receive? && inputs[n].generation == before.generation && inputs[n].message.Drained?
        && inputs[n].message.request == request && before.ready == Some(inputs[n].message.fence)
          && request in before.drained;
    }
  }

  /** A witness: a DRAINED that arrives before anyone waits for it does not complete the later wait. */
  lemma EarlyDrainedIsLost(s: State, request: RequestId, fence: int)
    requires request !in s.drained
    ensures var t := HandledAll(s, [Receive(s.generation, Drained(request, fence)), WaitForDrained(request)]);
            request in t.drained && t.drained[request].None?
  {
    var inputs := [Receive(s.generation, Drained(request, fence)), WaitForDrained(request)];
    assert inputs[1..] == [WaitForDrained(request)] && inputs[1..][1..] == [];
    var h := Handled(s, inputs[0]);
    assert h == s;
    assert HandledAll(h, [WaitForDrained(request)]) == HandledAll(Handled(h, WaitForDrained(request)), []);
  }

  // ---------------------------------------------------------------- the object

  class Session {
    const generation: nat
    const release: nat
    var managedExit: bool
    var ready: Option<int>
    var heartbeatSequence: int
    var exited: Option<int>
    var reported: bool
    var drained: map<RequestId, Option<int>>
    var exitReports: seq<int>
    var beats: seq<int>
    var activations: seq<RequestId>

    ghost function View(): State
      reads this
    {
      State(generation, release, managedExit, ready, heartbeatSequence, exited, reported, drained, exitReports, beats,
            activations)
    }

    constructor (generation: nat, release: nat)
      ensures View() == Fresh(generation, release)
      ensures Latched(View()) && Believed(View())
    {
      this.generation, this.release := generation, release;
      managedExit, ready, heartbeatSequence := false, None, 0;
      exited, reported, drained := None, false, map[];
      exitReports, beats, activations := [], [], [];
    }

    method FinishExit(code: int)
      modifies this
      ensures View() == Handled(old(View()), ExitSignal(code))
    {
      if exited.Some? { return; }
      exited := Some(code);
      ReportUnexpectedExitIfNeeded();
    }

    method AllowUnexpectedExitRecovery()
      modifies this
      ensures View() == Handled(old(View()), AllowRecovery)
    {
      managedExit := false;
      ReportUnexpectedExitIfNeeded();
    }

    method ReportUnexpectedExitIfNeeded()
      modifies this`reported, this`exitReports
      ensures View() == Reported(old(View()))
    {
      if managedExit || exited.None? || reported { return; }
      reported := true;
      exitReports := exitReports + [exited.value];
    }

    method Wait(request: RequestId)
      modifies this`drained
      ensures View() == Handled(old(View()), WaitForDrained(request))
    {
      if request in drained { return; }
      drained := drained[request := None];
    }

    method Accept(from: nat, message: Message)
      modifies this
      ensures View() == Handled(old(View()), Receive(from, message))
    {
      if from != generation { return; }
      match message
      case Ready(messageRelease, fence) =>
        if ready.Some? { return; }
        if messageRelease != release { return; }
        ready := Some(fence);
      case Heartbeat(messageRelease, fence, sequence) =>
        if ready.None? || messageRelease != release || fence != ready.value || sequence <= heartbeatSequence { return; }
        heartbeatSequence := sequence;
        beats := beats + [sequence];
      case Drained(request, fence) =>
        if ready.None? || fence != ready.value { return; }
        if request in drained && drained[request].None? { drained := drained[request := Some(fence)]; }
      case Activate(request) =>
        if ready.None? { return; }
        activations := activations + [request];
    }
  }
}
