/** The crash list and the restart budget of the Host, over all runs. */
module HostBudget {
  import opened Wrappers
  import opened HostProtocol

  predicate Sane(cfg: Config) {
    cfg.window > 0 && cfg.maxCrashes > 0
  }

  // ---------------------------------------------------------------- crashes

  function Times(crashes: seq<Crash>): seq<int> {
    seq(|crashes|, i requires 0 <= i < |crashes| => crashes[i].time)
  }

  /** The kept list is the part of the recorded history inside the window that ended at the last
      prune, and every automatic restart was within budget at its time. */
  predicate Accounted(cfg: Config, clock: int, pruned: int, recorded: seq<Crash>, kept: seq<int>) {
    && pruned <= clock
    && Chronological(clock, recorded)
    && kept == Within(Times(recorded), pruned - cfg.window)
    && Affordable(cfg, recorded)
  }

  predicate Chronological(clock: int, recorded: seq<Crash>) {
    && (forall i :: 0 <= i < |recorded| ==> recorded[i].time <= clock)
    && (forall i, j :: 0 <= i < j < |recorded| ==> recorded[i].time <= recorded[j].time)
  }

  predicate Affordable(cfg: Config, recorded: seq<Crash>) {
    forall k :: 0 <= k < |recorded| && recorded[k].restarted ==>
      |Within(Times(recorded[..k + 1]), recorded[k].time - cfg.window)| <= cfg.maxCrashes
  }

  predicate Budget(cfg: Config, h: Host) {
    Accounted(cfg, h.ledger.clock, h.ledger.pruned, h.ledger.recorded, h.durable.crashes)
  }

  // ---------------------------------------------------------------- the crash list

  /** The window keeps exactly the later times, as often as they occur. */
  lemma {:induction false} WithinKeepsLater(times: seq<int>, after: int, x: int)
    ensures multiset(Within(times, after))[x] == if after < x then multiset(times)[x] else 0
  {
    if times != [] {
      var n := |times| - 1;
      var front, last := times[..n], times[n];
      WithinKeepsLater(front, after, x);
      assert Within(times, after) == Within(front, after) + (if last > after then [last] else []);
      hide Within;
      assert multiset(times) == multiset(front) + multiset{last} by { assert times == front + [last]; }
    }
  }

  lemma {:induction false} WithinTwice(times: seq<int>, a: int, b: int)
    requires a <= b
    ensures Within(Within(times, a), b) == Within(times, b)
  {
    if times != [] {
      var n := |times| - 1;
      WithinTwice(times[..n], a, b);
      var inner := Within(times[..n], a);
      if times[n] > a {
        assert (inner + [times[n]])[..|inner|] == inner;
      } else {
        assert inner + [] == inner;
      }
    }
  }

  lemma TimesAppend(crashes: seq<Crash>, c: Crash)
    ensures Times(crashes + [c]) == Times(crashes) + [c.time]
  {
  }

  lemma WithinAppend(times: seq<int>, t: int, after: int)
    requires t > after
    ensures Within(times + [t], after) == Within(times, after) + [t]
  {
    assert (times + [t])[..|times|] == times;
  }

  lemma AppendAffordable(cfg: Config, recorded: seq<Crash>, c: Crash)
    requires Affordable(cfg, recorded)
    requires c.restarted ==> |Within(Times(recorded + [c]), c.time - cfg.window)| <= cfg.maxCrashes
    ensures Affordable(cfg, recorded + [c])
  {
    var more := recorded + [c];
    forall k | 0 <= k < |more| && more[k].restarted
      ensures |Within(Times(more[..k + 1]), more[k].time - cfg.window)| <= cfg.maxCrashes
    {
      if k < |recorded| {
        assert more[..k + 1] == recorded[..k + 1];
      } else {
        assert more[..k + 1] == more;
      }
    }
  }

  lemma CrashAccounted(cfg: Config, clock: int, pruned: int, recorded: seq<Crash>, kept: seq<int>, now: int,
                       restarted: bool)
    requires Sane(cfg) && Accounted(cfg, clock, pruned, recorded, kept) && clock <= now
    requires restarted ==> |Within(kept, now - cfg.window)| + 1 <= cfg.maxCrashes
    ensures Accounted(cfg, now, now, recorded + [Crash(now, restarted)], Within(kept, now - cfg.window) + [now])
  {
    hide Within, Affordable;
    var c := Crash(now, restarted);
    WithinTwice(Times(recorded), pruned - cfg.window, now - cfg.window);
    TimesAppend(recorded, c);
    WithinAppend(Times(recorded), now, now - cfg.window);
    AppendAffordable(cfg, recorded, c);
  }

  /** The pruned list after a crash is again the suffix of the whole history inside the window. */
  lemma CrashKeepsBudget(cfg: Config, h: Host, now: int, write: bool, restarts: bool)
    requires Sane(cfg) && Budget(cfg, h) && h.crashes == h.durable.crashes && h.ledger.clock <= now
    ensures Budget(cfg, RecordCrash(cfg, h, now, write, restarts))
  {
    var kept := Within(h.crashes, now - cfg.window) + [now];
    var restarted := restarts && |kept| <= cfg.maxCrashes;
    CrashAccounted(cfg, h.ledger.clock, h.ledger.pruned, h.ledger.recorded, h.durable.crashes, now, restarted);
  }


  lemma PruneAccounted(cfg: Config, clock: int, pruned: int, recorded: seq<Crash>, kept: seq<int>, now: int)
    requires Accounted(cfg, clock, pruned, recorded, kept) && clock <= now
    ensures Accounted(cfg, now, pruned, recorded, kept)
    ensures Accounted(cfg, now, now, recorded, Within(kept, now - cfg.window))
  {
    WithinTwice(Times(recorded), pruned - cfg.window, now - cfg.window);
  }

  lemma BootBudget(cfg: Config, h: Host, now: int, write: bool, verified: bool, closed: bool)
    requires Budget(cfg, h)
    ensures Budget(cfg, OnBoot(cfg, h, now, write, verified, closed))
  {
    hide Accounted, Within;
    if h.ledger.clock <= now {
      PruneAccounted(cfg, h.ledger.clock, h.ledger.pruned, h.ledger.recorded, h.durable.crashes, now);
    }
  }

  // ---------------------------------------------------------------- the restart budget

  predicate Kept(cfg: Config, h: Host) {
    Budget(cfg, h) && (h.up ==> h.crashes == h.durable.crashes)
  }

  lemma RecordLedger(cfg: Config, h: Host, now: int, write: bool, restarts: bool)
    requires Sane(cfg) && Kept(cfg, h) && h.up && h.ledger.clock <= now
    ensures Kept(cfg, RecordCrash(cfg, h, now, write, restarts))
  {
    hide Accounted;
    CrashKeepsBudget(cfg, h, now, write, restarts);
  }

  lemma AllowLedger(cfg: Config, h: Host, i: SessionId, now: int, write: bool)
    requires Sane(cfg) && Kept(cfg, h) && h.up && h.ledger.clock <= now
    ensures Kept(cfg, Allow(cfg, h, i, now, write))
  {
    hide Accounted, RecordCrash;
    var r := Manage(h, i, false);
    if Unexpected(r, i) { RecordLedger(cfg, r.(active := None), now, write, true); }
  }

  lemma AdvanceLedger(cfg: Config, h: Host, c: Choice)
    requires Sane(cfg) && Kept(cfg, h)
    ensures Kept(cfg, OnAdvance(cfg, h, c))
  {
    hide AtResolving, AtVerifying, AtDraining, AtAwaitReady, AtKilling, AtStabilizing, AtLinked, AtSettling, Fail;
    hide AtRollbackVerifying, AtRollbackReady, RollbackFail, Allow, Send, Accounted;
    if h.up && h.act.Busy? && h.ledger.clock <= c.now {
      match h.act.at
      case FailSettling => AllowLedger(cfg, h, h.act.job.prior, c.now, c.write);
      case RollbackSettling(i) => AllowLedger(cfg, h, i, c.now, c.write);
      case _ =>
    }
  }

  lemma RestartLedger(cfg: Config, h: Host, c: Choice)
    requires Sane(cfg) && Kept(cfg, h)
    ensures Kept(cfg, OnRestart(cfg, h, c))
  {
    hide RecordCrash, Accounted;
    if h.up && h.ledger.clock <= c.now && h.restart.RestartKilling? {
      RecordLedger(cfg, Deactivate(h, h.restart.c), c.now, c.write, true);
    }
  }

  lemma ExitLedger(cfg: Config, h: Host, i: SessionId, c: Choice)
    requires Sane(cfg) && Kept(cfg, h)
    ensures Kept(cfg, OnExit(cfg, h, i, c))
  {
    hide RecordCrash, Accounted;
    if h.up && Alive(h, i) && h.ledger.clock <= c.now {
      RecordLedger(cfg, Put(h, i, h.sessions[i].(alive := false)).(active := None), c.now, c.write, true);
    }
  }

  lemma BootReadyLedger(cfg: Config, h: Host, c: Choice)
    requires Kept(cfg, h)
    ensures Kept(cfg, OnBootReady(h, c))
  {
    hide Send, Accounted;
  }

  lemma NextLedger(cfg: Config, h: Host, e: Event)
    requires Sane(cfg) && Kept(cfg, h)
    ensures Kept(cfg, Next(cfg, h, e))
  {
    hide OnAdvance, OnRestart, OnExit, OnBootReady, RecordCrash, Accept, Send, Within, Accounted;
    match e
    case BootReady(c) => BootReadyLedger(cfg, h, c);
    case Boot(now, write, verified, closed) => BootBudget(cfg, h, now, write, verified, closed);
    case BootGiveUp(c) =>
      if h.up && h.ledger.clock <= c.now { RecordLedger(cfg, Deactivate(h, 0), c.now, c.write, false); }
    case Exit(i, c) => ExitLedger(cfg, h, i, c);
    case Advance(c) => AdvanceLedger(cfg, h, c);
    case Restart(c) => RestartLedger(cfg, h, c);
    case _ =>
  }

  lemma {:induction false} RunLedger(cfg: Config, h: Host, events: seq<Event>)
    requires Sane(cfg) && Kept(cfg, h)
    ensures Kept(cfg, Run(cfg, h, events))
    decreases |events|
  {
    hide Next, Kept;
    if events != [] {
      NextLedger(cfg, h, events[0]);
      RunLedger(cfg, Next(cfg, h, events[0]), events[1..]);
    }
  }

  /** Recorded crashes in the window (after, upto] that were followed by an automatic restart. */
  function RestartsIn(recorded: seq<Crash>, after: int, upto: int): nat {
    if recorded == [] then 0
    else
      var last := recorded[|recorded| - 1];
      RestartsIn(recorded[..|recorded| - 1], after, upto) + if last.restarted && after < last.time <= upto then 1 else 0
  }

  lemma {:induction false} RestartsAreKept(recorded: seq<Crash>, after: int, upto: int)
    ensures RestartsIn(recorded, after, upto) <= |Within(Times(recorded), after)|
  {
    if recorded != [] {
      var n := |recorded| - 1;
      RestartsAreKept(recorded[..n], after, upto);
      assert Times(recorded)[..n] == Times(recorded[..n]);
    }
  }

  lemma {:induction false} WiderKeepsMore(times: seq<int>, a: int, b: int)
    requires a <= b
    ensures |Within(times, b)| <= |Within(times, a)|
  {
    if times != [] { WiderKeepsMore(times[..|times| - 1], a, b); }
  }

  lemma AffordablePrefix(cfg: Config, recorded: seq<Crash>)
    requires Affordable(cfg, recorded) && recorded != []
    ensures Affordable(cfg, recorded[..|recorded| - 1])
  {
    var init := recorded[..|recorded| - 1];
    forall k | 0 <= k < |init| && init[k].restarted
      ensures |Within(Times(init[..k + 1]), init[k].time - cfg.window)| <= cfg.maxCrashes
    {
      assert init[..k + 1] == recorded[..k + 1];
    }
  }

  lemma {:induction false} WindowBudget(cfg: Config, recorded: seq<Crash>, upto: int)
    requires Affordable(cfg, recorded)
    ensures RestartsIn(recorded, upto - cfg.window, upto) <= cfg.maxCrashes
  {
    if recorded != [] {
      var n := |recorded| - 1;
      var last := recorded[n];
      if last.restarted && upto - cfg.window < last.time <= upto {
        assert recorded[..n + 1] == recorded;
        RestartsAreKept(recorded, upto - cfg.window, upto);
        WiderKeepsMore(Times(recorded), last.time - cfg.window, upto - cfg.window);
      } else {
        AffordablePrefix(cfg, recorded);
        WindowBudget(cfg, recorded[..n], upto);
      }
    }
  }

  /** Through every prune, crash and Host restart the durable list is the part of the whole recorded
      history inside the window of the last prune; so no window of that length, wherever it ends,
      holds more than `maxCrashes` crashes that were followed by an automatic restart. */
  lemma RestartsAreBounded(cfg: Config, h: Host, events: seq<Event>, upto: int)
    requires Sane(cfg) && Initial(h)
    ensures var r := Run(cfg, h, events);
            && r.durable.crashes == Within(Times(r.ledger.recorded), r.ledger.pruned - cfg.window)
            && RestartsIn(r.ledger.recorded, upto - cfg.window, upto) <= cfg.maxCrashes
  {
    RunLedger(cfg, h, events);
    WindowBudget(cfg, Run(cfg, h, events).ledger.recorded, upto);
  }
}
