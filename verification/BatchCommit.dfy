/** The workspace helper's batch commit: stage every new file beside its target, swap
    them in one rename at a time, and undo the swaps in reverse when one fails. */
module BatchCommit {
  import opened Wrappers

  type Name = nat
  type Bytes = seq<bv8>

  datatype File = Regular(bytes: Bytes, mode: nat) | Special

  /** A digest, abstract and injective. */
  datatype Digest = Sha256(of: Bytes)

  /** `content` is None when the base64 text does not decode. */
  datatype Entry = Entry(target: Name, content: Option<Bytes>, expected: Digest)

  /** One staged entry: its temporary and backup names and the file written under the temporary name. */
  datatype Item = Item(temp: Name, backup: Name, target: Name, file: File)

  datatype Outcome =
    | EmptyBatch
    | Missing(index: nat)
    | NotRegular(index: nat)
    | Stale(index: nat)
    | BadContent(index: nat)
    | StagingFailed(index: nat, created: bool)
    | SwapFailed
    | CleanupFailed
    | Committed

  /** What the operating system answers: for which entries the temporary file can be created, and written,
      the two swap renames, the rollback rename and the unlink of the backup succeed, and the parent sync. */
  datatype Answers = Answers(
    created: set<nat>, written: set<nat>, saved: set<nat>, placed: set<nat>, synced: bool, returned: set<nat>,
    unlinked: set<nat>)

  type Files = map<Name, File>

  function FileUnder(files: Files, n: Name): Option<File> {
    if n in files then Some(files[n]) else None
  }

  function Moved(files: Files, src: Name, dst: Name): Files
    requires src in files
  {
    (files - {src})[dst := files[src]]
  }

  /** New content keeps the permission bits of the file it replaces. */
  function Replacement(replaced: File, bytes: Bytes): File {
    Regular(bytes, if replaced.Regular? then replaced.mode % 512 else 0)
  }

  // ---------------------------------------------------------------- specification

  /** Names minted for a batch are new and pairwise different. */
  ghost predicate FreshNames(files: Files, entries: seq<Entry>, temps: seq<Name>, backups: seq<Name>) {
    && |temps| == |backups| == |entries|
    && (forall i, j :: 0 <= i < |temps| && 0 <= j < |temps| ==> temps[i] != backups[j])
    && (forall i, j :: 0 <= i < j < |temps| ==> temps[i] != temps[j] && backups[i] != backups[j])
    && (forall i :: 0 <= i < |temps| ==> temps[i] !in files && backups[i] !in files)
    && (forall i, j :: 0 <= i < |temps| && 0 <= j < |entries| ==>
          temps[i] != entries[j].target && backups[i] != entries[j].target)
  }

  /** An entry that staging accepts against the files it found. */
  ghost predicate Accepted(files: Files, e: Entry) {
    && e.target in files && files[e.target].Regular?
    && Sha256(files[e.target].bytes) == e.expected && e.content.Some?
  }

  /** Staging gets past entry `i`. */
  ghost predicate Stages(files: Files, entries: seq<Entry>, env: Answers, i: nat)
    requires i < |entries|
  {
    Accepted(files, entries[i]) && i in env.created && i in env.written
  }

  ghost predicate AllStage(files: Files, entries: seq<Entry>, env: Answers, k: nat)
    requires k <= |entries|
  {
    forall i :: 0 <= i < k ==> Stages(files, entries, env, i)
  }

  /** Both renames of each of the first `k` entries succeed. */
  predicate AllSwap(env: Answers, k: nat) {
    forall i :: 0 <= i < k ==> i in env.saved && i in env.placed
  }

  predicate AllUnlink(env: Answers, k: nat) {
    forall i :: 0 <= i < k ==> i in env.unlinked
  }

  /** Why staging stops at entry `i`. */
  ghost function StopsWith(files: Files, e: Entry, env: Answers, i: nat): Outcome
    requires !(Accepted(files, e) && i in env.created && i in env.written)
  {
    if e.target !in files then Missing(i)
    else if files[e.target].Special? then NotRegular(i)
    else if e.expected != Sha256(files[e.target].bytes) then Stale(i)
    else if e.content == None then BadContent(i)
    else StagingFailed(i, i in env.created)
  }

  /** What stands under `n` once the first `k` entries took effect in order. */
  ghost function After(files: Files, entries: seq<Entry>, k: nat, n: Name): Option<File>
    requires k <= |entries| && forall i :: 0 <= i < k ==> Accepted(files, entries[i])
  {
    if k == 0 then FileUnder(files, n)
    else if entries[k - 1].target == n then
      assert Accepted(files, entries[k - 1]);
      Some(Replacement(files[n], entries[k - 1].content.value))
    else After(files, entries, k - 1, n)
  }

  /** What rollback leaves under `n` when `failed` holds the backups it could not rename back,
      given what stood there before (`live`) and the backups `m..b` already handled. */
  ghost function Restored(files: Files, entries: seq<Entry>, live: Option<File>, failed: set<nat>, m: nat, b: nat,
                          n: Name): Option<File>
    requires m <= b <= |entries| && forall i :: 0 <= i < |entries| ==> Accepted(files, entries[i])
    decreases b - m
  {
    if m == b then live
    else if entries[m].target == n && m !in failed then After(files, entries, m, n)
    else Restored(files, entries, live, failed, m + 1, b, n)
  }

  /** Between two renames: `k` entries swapped in, `b` targets moved to their backup name. */
  ghost predicate SwapState(now: Files, files: Files, entries: seq<Entry>, items: seq<Item>, k: nat, b: nat)
    requires |items| == |entries| && k <= b <= k + 1 && b <= |entries|
    requires forall i :: 0 <= i < |entries| ==> Accepted(files, entries[i])
  {
    && TempsAt(now, items, k)
    && (forall i :: 0 <= i < |items| ==>
          FileUnder(now, items[i].backup) == if i < b then After(files, entries, i, items[i].target) else None)
    && (forall n: Name {:trigger FileUnder(now, n)} :: Ordinary(items, n) ==>
          FileUnder(now, n) == if b > k && n == entries[k].target then None else After(files, entries, k, n))
  }

  /** Staged files from `k` on stand under their temporary names; earlier names are gone. */
  ghost predicate TempsAt(now: Files, items: seq<Item>, k: nat) {
    forall i :: 0 <= i < |items| ==> FileUnder(now, items[i].temp) == if i < k then None else Some(items[i].file)
  }

  /** Staging has added the temporary files of `items` and nothing else. */
  ghost predicate StagedState(now: Files, files: Files, items: seq<Item>) {
    && TempsAt(now, items, 0)
    && (forall i :: 0 <= i < |items| ==> FileUnder(now, items[i].backup) == None)
    && (forall n: Name {:trigger FileUnder(now, n)} :: Ordinary(items, n) ==> FileUnder(now, n) == FileUnder(files, n))
  }

  ghost predicate Ordinary(items: seq<Item>, n: Name) {
    forall i :: 0 <= i < |items| ==> n != items[i].temp && n != items[i].backup
  }

  ghost predicate ItemsOf(files: Files, entries: seq<Entry>, temps: seq<Name>, backups: seq<Name>, items: seq<Item>)
  {
    && FreshNames(files, entries, temps, backups) && |items| <= |entries|
    && (forall i :: 0 <= i < |items| ==> Accepted(files, entries[i]))
    && (forall i :: 0 <= i < |items| ==>
          items[i] == Item(temps[i], backups[i], entries[i].target,
                           Replacement(files[entries[i].target], entries[i].content.value)))
  }

  /** Names after a batch took full effect: every target holds its last entry, all else is as it was. */
  ghost predicate AllWritten(now: Files, files: Files, entries: seq<Entry>)
    requires forall i :: 0 <= i < |entries| ==> Accepted(files, entries[i])
  {
    forall n: Name {:trigger FileUnder(now, n)} :: FileUnder(now, n) == After(files, entries, |entries|, n)
  }

  /** What a batch reports: the swapped entries, the targets under a backup name, and the backups
      that rollback could not rename back (the helper swallows those). */
  datatype Report = Report(outcome: Outcome, swapped: nat, saved: nat, failed: set<nat>)

  /** What stood under `n` when the swap stopped after `k` entries with `b` targets moved away. */
  ghost function Stopped(files: Files, entries: seq<Entry>, k: nat, b: nat, n: Name): Option<File>
    requires k <= b <= k + 1 && b <= |entries| && forall i :: 0 <= i < |entries| ==> Accepted(files, entries[i])
  {
    if b > k && n == entries[k].target then None else After(files, entries, k, n)
  }

  /** Rollback has handled the backups from `m` on. */
  ghost predicate RollbackState(now: Files, files: Files, entries: seq<Entry>, items: seq<Item>,
                                k: nat, b: nat, m: nat, failed: set<nat>)
    requires |items| == |entries| && k <= b <= k + 1 && m <= b <= |entries|
    requires forall i :: 0 <= i < |entries| ==> Accepted(files, entries[i])
  {
    && (forall i :: 0 <= i < m ==> FileUnder(now, items[i].backup) == After(files, entries, i, items[i].target))
    && (forall n: Name {:trigger FileUnder(now, n)} :: Ordinary(items, n) ==>
          FileUnder(now, n) == Restored(files, entries, Stopped(files, entries, k, b, n), failed, m, b, n))
  }

  /** What the report says stands under `n` after a failed swap. */
  ghost function RolledBackTo(files: Files, entries: seq<Entry>, report: Report, n: Name): Option<File>
    requires report.swapped <= report.saved <= report.swapped + 1 && report.saved <= |entries|
    requires forall i :: 0 <= i < |entries| ==> Accepted(files, entries[i])
  {
    Restored(files, entries, Stopped(files, entries, report.swapped, report.saved, n), report.failed, 0, report.saved,
             n)
  }

  predicate Rejection(outcome: Outcome) {
    outcome.Missing? || outcome.NotRegular? || outcome.Stale? || outcome.BadContent?
  }

  /** A write that fails while staging leaves its own temporary file behind: it was not yet recorded. */
  function WithLeak(files: Files, temp: Name, file: Option<File>): Files {
    if file.None? then files else files[temp := file.value]
  }

  /** Staging stopped at the file `temp`, which had been created or not. */
  ghost predicate LeakedState(now: Files, files: Files, temp: Name, items: seq<Item>, created: bool) {
    exists file: Option<File> :: file.Some? == created && StagedState(now, WithLeak(files, temp, file), items)
  }

  lemma StageOne(now: Files, files: Files, entries: seq<Entry>, temps: seq<Name>, backups: seq<Name>,
                 items: seq<Item>, item: Item)
    requires ItemsOf(files, entries, temps, backups, items) && |items| < |entries|
    requires StagedState(now, files, items)
    requires item.temp == temps[|items|] && item.backup == backups[|items|]
    ensures StagedState(now[item.temp := item.file], files, items + [item])
  {
    var next, more := now[item.temp := item.file], items + [item];
    assert Ordinary(items, item.temp) && Ordinary(items, item.backup);
    assert forall n :: n != item.temp ==> FileUnder(next, n) == FileUnder(now, n);
    forall i | 0 <= i < |more|
      ensures FileUnder(next, more[i].temp) == Some(more[i].file) && FileUnder(next, more[i].backup) == None
    {
      if i < |items| {
        assert more[i] == items[i];
        assert FileUnder(now, items[i].temp) == Some(items[i].file) && FileUnder(now, items[i].backup) == None;
      } else {
        assert FileUnder(now, item.backup) == FileUnder(files, item.backup);
      }
    }
    forall n: Name | Ordinary(more, n) ensures FileUnder(next, n) == FileUnder(files, n) {
      assert n != more[|items|].temp;
      assert forall j :: 0 <= j < |items| ==> items[j] == more[j];
      assert Ordinary(items, n);
    }
  }

  lemma Leak(now: Files, files: Files, entries: seq<Entry>, temps: seq<Name>, backups: seq<Name>, items: seq<Item>,
             junk: File)
    requires ItemsOf(files, entries, temps, backups, items) && |items| < |entries|
    requires StagedState(now, files, items)
    ensures LeakedState(now[temps[|items|] := junk], files, temps[|items|], items, true)
  {
    var temp := temps[|items|];
    var next, leaked := now[temp := junk], WithLeak(files, temp, Some(junk));
    assert forall n :: n != temp ==>
      FileUnder(next, n) == FileUnder(now, n) && FileUnder(leaked, n) == FileUnder(files, n);
    forall i | 0 <= i < |items|
      ensures FileUnder(next, items[i].temp) == Some(items[i].file) && FileUnder(next, items[i].backup) == None
    {
      assert FileUnder(now, items[i].temp) == Some(items[i].file) && FileUnder(now, items[i].backup) == None;
    }
  }

  /** A name that held a file, or that an entry wrote, holds one. */
  lemma {:induction false} WritesAreFiles(files: Files, entries: seq<Entry>, k: nat, n: Name)
    requires k <= |entries| && n in files && forall i :: 0 <= i < |entries| ==> Accepted(files, entries[i])
    ensures After(files, entries, k, n).Some?
  {
    if k > 0 { WritesAreFiles(files, entries, k - 1, n); }
  }

  lemma TargetStands(now: Files, files: Files, entries: seq<Entry>, temps: seq<Name>, backups: seq<Name>,
                     items: seq<Item>, k: nat)
    requires ItemsOf(files, entries, temps, backups, items) && k < |items| == |entries|
    requires SwapState(now, files, entries, items, k, k)
    ensures items[k].target in now
  {
    var target := items[k].target;
    assert Ordinary(items, target);
    assert FileUnder(now, target) == After(files, entries, k, target);
    WritesAreFiles(files, entries, k, target);
  }

  /** The swap loop between two renames. */
  ghost predicate Swapping(now: Files, files: Files, entries: seq<Entry>, temps: seq<Name>, backups: seq<Name>,
                           items: seq<Item>, k: nat, b: nat)
  {
    && ItemsOf(files, entries, temps, backups, items) && |items| == |entries|
    && k <= b <= k + 1 && b <= |entries| && SwapState(now, files, entries, items, k, b)
  }

  lemma SaveOne(now: Files, files: Files, entries: seq<Entry>, temps: seq<Name>, backups: seq<Name>, items: seq<Item>,
                k: nat)
    requires Swapping(now, files, entries, temps, backups, items, k, k) && k < |items|
    ensures items[k].target in now
    ensures Swapping(Moved(now, items[k].target, items[k].backup), files, entries, temps, backups, items, k, k + 1)
  {
    TargetStands(now, files, entries, temps, backups, items, k);
    MovedAway(now, files, entries, temps, backups, items, k);
    hide SwapState;
  }

  lemma PlaceOne(now: Files, files: Files, entries: seq<Entry>, temps: seq<Name>, backups: seq<Name>, items: seq<Item>,
                 k: nat)
    requires Swapping(now, files, entries, temps, backups, items, k, k + 1) && k < |items|
    ensures items[k].temp in now
    ensures Swapping(Moved(now, items[k].temp, items[k].target), files, entries, temps, backups, items, k + 1, k + 1)
  {
    assert FileUnder(now, items[k].temp) == Some(items[k].file);
    MovedIn(now, files, entries, temps, backups, items, k);
    hide SwapState;
  }

  /** The rollback loop before it looks at backup `m - 1`. */
  ghost predicate Returning(now: Files, files: Files, entries: seq<Entry>, temps: seq<Name>, backups: seq<Name>,
                            items: seq<Item>, k: nat, b: nat, m: nat, failed: set<nat>)
  {
    && ItemsOf(files, entries, temps, backups, items) && |items| == |entries|
    && k <= b <= k + 1 && m <= b <= |entries| && (forall i :: i in failed ==> m <= i)
    && RollbackState(now, files, entries, items, k, b, m, failed)
  }

  lemma ReturnOne(now: Files, files: Files, entries: seq<Entry>, temps: seq<Name>, backups: seq<Name>,
                  items: seq<Item>, k: nat, b: nat, m: nat, failed: set<nat>)
    requires m < |items| && Returning(now, files, entries, temps, backups, items, k, b, m + 1, failed)
    ensures items[m].backup in now
    ensures Returning(Moved(now, items[m].backup, items[m].target), files, entries, temps, backups, items, k, b, m,
                      failed)
    ensures Returning(now, files, entries, temps, backups, items, k, b, m, failed + {m})
  {
    assert FileUnder(now, items[m].backup) == After(files, entries, m, items[m].target);
    WritesAreFiles(files, entries, m, items[m].target);
    RolledBack(now, files, entries, temps, backups, items, k, b, m, failed);
    RollbackSkipped(now, files, entries, items, k, b, m, failed);
    hide RollbackState;
  }

  lemma SwapOneMore(env: Answers, k: nat)
    requires AllSwap(env, k) && k in env.saved && k in env.placed
    ensures AllSwap(env, k + 1)
  {
  }

  /** Exactly the backups from `m` on whose rollback rename fails. */
  ghost predicate NotReturned(failed: set<nat>, env: Answers, m: nat, b: nat) {
    forall i: nat :: i in failed <==> m <= i < b && i !in env.returned
  }

  lemma ReturnOneMore(failed: set<nat>, env: Answers, m: nat, b: nat)
    requires m < b && NotReturned(failed, env, m + 1, b)
    ensures m !in failed
    ensures NotReturned(if m in env.returned then failed else failed + {m}, env, m, b)
  {
  }

  // ---------------------------------------------------------------- the file system

  class Workspace {
    var files: Files

    constructor (initial: Files)
      ensures files == initial
    {
      files := initial;
    }

    /** A rename that may fail; a failed one changes nothing. */
    method Rename(src: Name, dst: Name, answer: bool) returns (ok: bool)
      modifies this
      ensures ok <==> answer && src in old(files)
      ensures ok ==> files == Moved(old(files), src, dst)
      ensures !ok ==> files == old(files)
    {
      ok := answer && src in files;
      if ok { files := Moved(files, src, dst); }
    }

    /** Unlink that ignores a missing name. */
    method Discard(n: Name)
      modifies this
      ensures files == old(files) - {n}
    {
      files := files - {n};
    }

    /** An unlink that may fail, and does for a missing name. */
    method TryUnlink(n: Name, answer: bool) returns (ok: bool)
      modifies this
      ensures ok <==> answer && n in old(files)
      ensures files == if ok then old(files) - {n} else old(files)
    {
      ok := answer && n in files;
      if ok { files := files - {n}; }
    }

    /** The validation loop: every target is resolved, hashed and staged before any visible rename. */
    method Stage(entries: seq<Entry>, temps: seq<Name>, backups: seq<Name>, env: Answers)
      returns (outcome: Outcome, items: seq<Item>)
      requires FreshNames(files, entries, temps, backups)
      modifies this
      ensures ItemsOf(old(files), entries, temps, backups, items)
      ensures outcome.StagingFailed? || StagedState(files, old(files), items)
      ensures outcome.StagingFailed? ==>
                && outcome.index == |items| < |entries|
                && LeakedState(files, old(files), temps[outcome.index], items, outcome.created)
      ensures outcome.Committed? <==> |items| == |entries|
      ensures Rejection(outcome) || outcome.StagingFailed? || outcome.Committed?
      ensures AllStage(old(files), entries, env, |items|)
      ensures |items| < |entries| ==>
                && !Stages(old(files), entries, env, |items|)
                && outcome == StopsWith(old(files), entries[|items|], env, |items|)
    {
      items := [];
      outcome := Committed;
      while |items| < |entries|
        invariant ItemsOf(old(files), entries, temps, backups, items)
        invariant StagedState(files, old(files), items)
        invariant AllStage(old(files), entries, env, |items|)
        decreases |entries| - |items|
      {
        var i := |items|;
        var e := entries[i];
        assert Ordinary(items, e.target);
        assert FileUnder(files, e.target) == FileUnder(old(files), e.target);
        if e.target !in files { return Missing(i), items; }
        var current := files[e.target];
        if !current.Regular? { return NotRegular(i), items; }
        if Sha256(current.bytes) != e.expected { return Stale(i), items; }
        if e.content.None? { return BadContent(i), items; }
        var item := Item(temps[i], backups[i], e.target, Replacement(current, e.content.value));
        if i !in env.created {
          assert LeakedState(files, old(files), temps[i], items, false) by {
            assert StagedState(files, WithLeak(old(files), temps[i], None), items);
          }
          return StagingFailed(i, false), items;
        }
        if i !in env.written {
          var partial: Bytes, mode: nat := *, *;
          var junk := Regular(partial, mode);
          Leak(files, old(files), entries, temps, backups, items, junk);
          files := files[item.temp := junk];
          return StagingFailed(i, true), items;
        }
        StageOne(files, old(files), entries, temps, backups, items, item);
        files := files[item.temp := item.file];
        items := items + [item];
      }
    }

    /** The swap loop: move each target to its backup name, then the staged file onto the target.
        `k` entries are swapped when it stops and `b` targets stand under a backup name. */
    method Swap(ghost original: Files, entries: seq<Entry>, ghost temps: seq<Name>, ghost backups: seq<Name>,
                items: seq<Item>, env: Answers)
      returns (ok: bool, k: nat, b: nat)
      requires Swapping(files, original, entries, temps, backups, items, 0, 0)
      modifies this
      ensures Swapping(files, original, entries, temps, backups, items, k, b)
      ensures k <= b <= k + 1 && b <= |items|
      ensures AllSwap(env, k) && (ok <==> k == |items| && env.synced)
      ensures k < |items| ==> (b > k <==> k in env.saved) && !(k in env.saved && k in env.placed)
    {
      k, b := 0, 0;
      assert AllSwap(env, 0);
      while k < |items|
        invariant k == b <= |items| && AllSwap(env, k)
        invariant Swapping(files, original, entries, temps, backups, items, k, b)
      {
        var item := items[k];
        SaveOne(files, original, entries, temps, backups, items, k);
        var moved := Rename(item.target, item.backup, k in env.saved);
        if !moved { return false, k, b; }
        b := k + 1;
        PlaceOne(files, original, entries, temps, backups, items, k);
        var placed := Rename(item.temp, item.target, k in env.placed);
        if !placed { return false, k, b; }
        SwapOneMore(env, k);
        k := k + 1;
      }
      // fsync of every parent directory
      ok := env.synced;
    }

    /** Reverse rollback; a rename that fails is swallowed. */
    method Rollback(ghost original: Files, entries: seq<Entry>, ghost temps: seq<Name>, ghost backups: seq<Name>,
                    items: seq<Item>, ghost k: nat, b: nat, env: Answers)
      returns (failed: set<nat>)
      requires b <= |items| && Returning(files, original, entries, temps, backups, items, k, b, b, {})
      modifies this
      ensures Returning(files, original, entries, temps, backups, items, k, b, 0, failed)
      ensures NotReturned(failed, env, 0, b)
    {
      failed := {};
      var m := b;
      assert NotReturned(failed, env, m, b);
      while m > 0
        invariant 0 <= m <= b && NotReturned(failed, env, m, b)
        invariant Returning(files, original, entries, temps, backups, items, k, b, m, failed)
      {
        m := m - 1;
        ReturnOneMore(failed, env, m, b);
        ReturnOne(files, original, entries, temps, backups, items, k, b, m, failed);
        var ok := Rename(items[m].backup, items[m].target, m in env.returned);
        if !ok { failed := failed + {m}; }
      }
    }

    /** The `finally` clause: unlink every staged temporary and every backup that is still there. */
    method Sweep(items: seq<Item>)
      modifies this
      ensures forall n: Name {:trigger FileUnder(files, n)} ::
                FileUnder(files, n) == if Ordinary(items, n) then FileUnder(old(files), n) else None
    {
      for i := 0 to |items|
        invariant forall n: Name {:trigger FileUnder(files, n)} ::
                    FileUnder(files, n) == if Ordinary(items[..i], n) then FileUnder(old(files), n) else None
      {
        ghost var before := files;
        Discard(items[i].temp);
        Discard(items[i].backup);
        assert items[..i + 1] == items[..i] + [items[i]];
        forall n: Name
          ensures FileUnder(files, n) == if Ordinary(items[..i + 1], n) then FileUnder(old(files), n) else None {
          OrdinaryOfAppend(items[..i], items[i], n);
          assert FileUnder(files, n) == if n in {items[i].temp, items[i].backup} then None else FileUnder(before, n);
        }
      }
      assert items[..|items|] == items;
    }

    /** After a successful swap the backups are unlinked; the first failure is reported, and the
        `finally` clause tries the rest once more. */
    method UnlinkBackups(items: seq<Item>, env: Answers) returns (ok: bool)
      requires forall i, j :: 0 <= i < j < |items| ==> items[i].backup != items[j].backup
      requires forall i :: 0 <= i < |items| ==> FileUnder(files, items[i].backup).Some?
      modifies this
      ensures ok <==> AllUnlink(env, |items|)
      ensures forall n: Name {:trigger FileUnder(files, n)} ::
                (forall i :: 0 <= i < |items| ==> n != items[i].backup) ==>
                  FileUnder(files, n) == FileUnder(old(files), n)
      ensures ok ==> forall i :: 0 <= i < |items| ==> FileUnder(files, items[i].backup) == None
    {
      ok := true;
      for i := 0 to |items|
        invariant forall n: Name {:trigger FileUnder(files, n)} ::
                    (forall j :: 0 <= j < |items| ==> n != items[j].backup) ==>
                      FileUnder(files, n) == FileUnder(old(files), n)
        invariant ok ==> forall j :: 0 <= j < i ==> FileUnder(files, items[j].backup) == None
        invariant forall j :: i <= j < |items| ==> FileUnder(files, items[j].backup).Some?
        invariant ok <==> AllUnlink(env, i)
      {
        ghost var before := files;
        var unlinked := TryUnlink(items[i].backup, i in env.unlinked);
        assert forall n: Name {:trigger FileUnder(files, n)} :: n != items[i].backup ==>
          FileUnder(files, n) == FileUnder(before, n);
        ok := ok && unlinked;
        assert forall j :: 0 <= j < i && FileUnder(before, items[j].backup) == None ==>
          FileUnder(files, items[j].backup) == None;
      }
    }

    /** `commit_batch`. */
    method CommitBatch(entries: seq<Entry>, temps: seq<Name>, backups: seq<Name>, env: Answers) returns (report: Report)
      requires FreshNames(files, entries, temps, backups)
      modifies this
      // Which outcome is reported, exactly: the first entry that staging cannot pass, the first rename or sync
      // that fails, the first unlink that fails, or none.
      ensures forall i: nat {:trigger Stages(old(files), entries, env, i)} ::
                i < |entries| && AllStage(old(files), entries, env, i) && !Stages(old(files), entries, env, i) ==>
                  report.outcome == StopsWith(old(files), entries[i], env, i)
      ensures report.outcome == SwapFailed <==>
                entries != [] && AllStage(old(files), entries, env, |entries|)
                && !(AllSwap(env, |entries|) && env.synced)
      ensures report.outcome == CleanupFailed <==>
                entries != [] && AllStage(old(files), entries, env, |entries|)
                && AllSwap(env, |entries|) && env.synced && !AllUnlink(env, |entries|)
      ensures report.outcome == Committed <==>
                entries != [] && AllStage(old(files), entries, env, |entries|)
                && AllSwap(env, |entries|) && env.synced && AllUnlink(env, |entries|)
      ensures report.outcome == Committed ==> report.swapped == |entries|
      // Nothing visible happens before every entry passed validation; only a failed write leaves its own temporary.
      ensures report.outcome == EmptyBatch <==> entries == []
      ensures report.outcome == EmptyBatch || Rejection(report.outcome) ==> files == old(files)
      ensures report.outcome.StagingFailed? ==>
                && report.outcome.index < |entries| && files - {temps[report.outcome.index]} == old(files)
                && (files == old(files) <==> !report.outcome.created)
      ensures Rejection(report.outcome) ==>
                report.outcome.index < |entries| && !Accepted(old(files), entries[report.outcome.index])
      ensures PastStaging(report.outcome) ==> forall i :: 0 <= i < |entries| ==> Accepted(old(files), entries[i])
      // A swap that fails anywhere leaves exactly what rollback put back, and no temporary or backup name.
      ensures report.outcome == SwapFailed ==>
                && report.swapped <= report.saved <= report.swapped + 1 && report.saved <= |entries|
                && AllSwap(env, report.swapped)
                && (report.swapped < |entries| ==>
                      && (report.saved > report.swapped <==> report.swapped in env.saved)
                      && !(report.swapped in env.saved && report.swapped in env.placed))
                && (forall i: nat :: i in report.failed <==> i < report.saved && i !in env.returned)
                && forall n: Name {:trigger FileUnder(files, n)} ::
                     FileUnder(files, n) == RolledBackTo(old(files), entries, report, n)
      ensures report.outcome == SwapFailed && report.failed == {} ==> files == old(files)
      // Success writes every entry in order; a failed cleanup may only leave backup names behind.
      ensures report.outcome == Committed ==> AllWritten(files, old(files), entries)
      ensures report.outcome == CleanupFailed ==>
                forall n: Name {:trigger FileUnder(files, n)} ::
                  n !in backups ==> FileUnder(files, n) == After(old(files), entries, |entries|, n)
    {
      report := Report(EmptyBatch, 0, 0, {});
      if entries == [] { return; }
      ghost var original := files;
      var outcome, items := Stage(entries, temps, backups, env);
      report := Report(outcome, 0, 0, {});
      if !outcome.Committed? {
        ghost var staged := files;
        Sweep(items);
        SweptStage(staged, files, original, entries, temps, backups, items, outcome);
        return;
      }
      SwapStart(files, original, entries, temps, backups, items);
      var swapped, k, b := Swap(original, entries, temps, backups, items, env);
      if !swapped {
        RollbackStart(files, original, entries, items, k, b);
        var failed := Rollback(original, entries, temps, backups, items, k, b, env);
        ghost var restored := files;
        Sweep(items);
        report := Report(SwapFailed, k, b, failed);
        SweptRollback(restored, files, original, entries, temps, backups, items, report);
        return;
      }
      ghost var done := files;
      forall i | 0 <= i < |items| ensures FileUnder(files, items[i].backup).Some? {
        WritesAreFiles(original, entries, i, items[i].target);
      }
      var cleaned := UnlinkBackups(items, env);
      report := Report(if cleaned then Committed else CleanupFailed, k, b, {});
      CleanSuccess(done, files, original, entries, temps, backups, items, cleaned);
    }
  }

  predicate PastStaging(outcome: Outcome) {
    outcome.SwapFailed? || outcome.CleanupFailed? || outcome.Committed?
  }

  lemma OrdinaryOfAppend(items: seq<Item>, item: Item, n: Name)
    ensures Ordinary(items + [item], n) <==> Ordinary(items, n) && n != item.temp && n != item.backup
  {
    var all := items + [item];
    assert all[|items|] == item;
    assert forall i :: 0 <= i < |items| ==> all[i] == items[i];
  }

  lemma SameFiles(a: Files, b: Files)
    requires forall n: Name :: FileUnder(a, n) == FileUnder(b, n)
    ensures a == b
  {
    forall n: Name ensures n in a <==> n in b {
      assert FileUnder(a, n) == FileUnder(b, n);
    }
    forall n: Name | n in a ensures a[n] == b[n] {
      assert FileUnder(a, n) == FileUnder(b, n);
    }
  }

  /** Renaming target `k` away lands in the half-swapped state. */
  lemma MovedAway(now: Files, files: Files, entries: seq<Entry>, temps: seq<Name>, backups: seq<Name>,
                  items: seq<Item>, k: nat)
    requires ItemsOf(files, entries, temps, backups, items) && k < |items| == |entries|
    requires SwapState(now, files, entries, items, k, k) && items[k].target in now
    ensures SwapState(Moved(now, items[k].target, items[k].backup), files, entries, items, k, k + 1)
  {
    var target, backup := items[k].target, items[k].backup;
    var next := Moved(now, target, backup);
    assert Ordinary(items, target);
    assert FileUnder(next, backup) == FileUnder(now, target) == After(files, entries, k, target);
    assert forall n :: n != target && n != backup ==> FileUnder(next, n) == FileUnder(now, n);
    forall i | 0 <= i < |items|
      ensures FileUnder(next, items[i].temp) == FileUnder(now, items[i].temp)
      ensures i != k ==> FileUnder(next, items[i].backup) == FileUnder(now, items[i].backup)
    {
    }
    forall n: Name | Ordinary(items, n)
      ensures FileUnder(next, n) == if n == target then None else After(files, entries, k, n)
    {
      assert n != items[k].backup;
      assert FileUnder(now, n) == After(files, entries, k, n);
    }
  }

  /** Renaming staged file `k` onto its target completes the swap. */
  lemma MovedIn(now: Files, files: Files, entries: seq<Entry>, temps: seq<Name>, backups: seq<Name>, items: seq<Item>,
                k: nat)
    requires ItemsOf(files, entries, temps, backups, items) && k < |items| == |entries|
    requires SwapState(now, files, entries, items, k, k + 1) && items[k].temp in now
    ensures SwapState(Moved(now, items[k].temp, items[k].target), files, entries, items, k + 1, k + 1)
  {
    var target, temp := items[k].target, items[k].temp;
    var next := Moved(now, temp, target);
    assert FileUnder(now, temp) == Some(items[k].file);
    assert forall n :: n != target && n != temp ==> FileUnder(next, n) == FileUnder(now, n);
    forall i | 0 <= i < |items|
      ensures i != k ==> FileUnder(next, items[i].temp) == FileUnder(now, items[i].temp)
      ensures FileUnder(next, items[i].backup) == FileUnder(now, items[i].backup)
    {
    }
    forall n: Name | Ordinary(items, n) ensures FileUnder(next, n) == After(files, entries, k + 1, n) {
      assert n != items[k].temp;
      if n != target { assert FileUnder(now, n) == After(files, entries, k, n); }
    }
  }

  lemma SwapStart(now: Files, files: Files, entries: seq<Entry>, temps: seq<Name>, backups: seq<Name>, items: seq<Item>)
    requires ItemsOf(files, entries, temps, backups, items) && |items| == |entries|
    requires StagedState(now, files, items)
    ensures SwapState(now, files, entries, items, 0, 0)
  {
  }

  /** A name nobody minted a temporary or backup for is untouched by later steps of the rollback. */
  lemma {:induction false} RestoredIgnores(files: Files, entries: seq<Entry>, live: Option<File>, failed: set<nat>,
                                           j: nat, m: nat, b: nat, n: Name)
    requires j < m <= b <= |entries| && forall i :: 0 <= i < |entries| ==> Accepted(files, entries[i])
    ensures Restored(files, entries, live, failed + {j}, m, b, n) == Restored(files, entries, live, failed, m, b, n)
    decreases b - m
  {
    if m < b { RestoredIgnores(files, entries, live, failed, j, m + 1, b, n); }
  }

  lemma RollbackStart(now: Files, files: Files, entries: seq<Entry>, items: seq<Item>, k: nat, b: nat)
    requires |items| == |entries| && k <= b <= k + 1 && b <= |entries|
    requires forall i :: 0 <= i < |entries| ==> Accepted(files, entries[i])
    requires SwapState(now, files, entries, items, k, b)
    ensures RollbackState(now, files, entries, items, k, b, b, {})
  {
  }

  lemma RolledBack(now: Files, files: Files, entries: seq<Entry>, temps: seq<Name>, backups: seq<Name>,
                   items: seq<Item>,
                   k: nat, b: nat, m: nat, failed: set<nat>)
    requires ItemsOf(files, entries, temps, backups, items) && |items| == |entries|
    requires k <= b <= k + 1 && m < b <= |entries| && m !in failed
    requires RollbackState(now, files, entries, items, k, b, m + 1, failed) && items[m].backup in now
    ensures RollbackState(Moved(now, items[m].backup, items[m].target), files, entries, items, k, b, m, failed)
  {
    var target, backup := items[m].target, items[m].backup;
    var next := Moved(now, backup, target);
    assert FileUnder(now, backup) == After(files, entries, m, target);
    assert forall n :: n != target && n != backup ==> FileUnder(next, n) == FileUnder(now, n);
    forall i | 0 <= i < m ensures FileUnder(next, items[i].backup) == After(files, entries, i, items[i].target) {
      assert FileUnder(now, items[i].backup) == After(files, entries, i, items[i].target);
    }
    forall n: Name | Ordinary(items, n)
      ensures FileUnder(next, n) == Restored(files, entries, Stopped(files, entries, k, b, n), failed, m, b, n)
    {
      assert n != items[m].backup;
    }
  }

  lemma RollbackSkipped(now: Files, files: Files, entries: seq<Entry>, items: seq<Item>, k: nat, b: nat, m: nat,
                        failed: set<nat>)
    requires |items| == |entries| && k <= b <= k + 1 && m < b <= |entries|
    requires forall i :: 0 <= i < |entries| ==> Accepted(files, entries[i])
    requires RollbackState(now, files, entries, items, k, b, m + 1, failed)
    ensures RollbackState(now, files, entries, items, k, b, m, failed + {m})
  {
    forall n: Name | Ordinary(items, n)
      ensures FileUnder(now, n) == Restored(files, entries, Stopped(files, entries, k, b, n), failed + {m}, m, b, n)
    {
      RestoredIgnores(files, entries, Stopped(files, entries, k, b, n), failed, m, m + 1, b, n);
    }
  }

  /** Sweeping after a failed validation leaves the files as they were, up to a leaked temporary. */
  lemma SweptStage(now: Files, after: Files, files: Files, entries: seq<Entry>, temps: seq<Name>, backups: seq<Name>,
                   items: seq<Item>, outcome: Outcome)
    requires ItemsOf(files, entries, temps, backups, items)
    requires outcome.StagingFailed? || StagedState(now, files, items)
    requires outcome.StagingFailed? ==>
               && outcome.index == |items| < |entries|
               && LeakedState(now, files, temps[outcome.index], items, outcome.created)
    requires Swept(now, after, items)
    ensures if outcome.StagingFailed?
            then after - {temps[outcome.index]} == files && (temps[outcome.index] in after <==> outcome.created)
            else after == files
    ensures outcome.StagingFailed? ==> (after == files <==> !outcome.created)
  {
    if outcome.StagingFailed? {
      var temp := temps[outcome.index];
      var file: Option<File> :| file.Some? == outcome.created && StagedState(now, WithLeak(files, temp, file), items);
      var base := WithLeak(files, temp, file);
      forall n: Name ensures FileUnder(after - {temp}, n) == FileUnder(files, n) {
        assert FileUnder(after, n) == if Ordinary(items, n) then FileUnder(now, n) else None;
        if Ordinary(items, n) { assert FileUnder(now, n) == FileUnder(base, n); }
      }
      SameFiles(after - {temp}, files);
      assert Ordinary(items, temp) && temp !in files;
      assert FileUnder(after, temp) == FileUnder(base, temp) == file;
      if file.None? { assert after - {temp} == after; }
    } else {
      forall n: Name ensures FileUnder(after, n) == FileUnder(files, n) {
        assert FileUnder(after, n) == if Ordinary(items, n) then FileUnder(now, n) else None;
      }
      SameFiles(after, files);
    }
  }

  ghost predicate Swept(now: Files, after: Files, items: seq<Item>) {
    forall n: Name {:trigger FileUnder(after, n)} :: FileUnder(after, n) == if Ordinary(items, n)
      then FileUnder(now, n) else None
  }

  lemma {:induction false} AfterUntouched(files: Files, entries: seq<Entry>, k: nat, n: Name)
    requires k <= |entries| && forall i :: 0 <= i < |entries| ==> Accepted(files, entries[i])
    requires forall i :: 0 <= i < k ==> entries[i].target != n
    ensures After(files, entries, k, n) == FileUnder(files, n)
  {
    if k > 0 { AfterUntouched(files, entries, k - 1, n); }
  }

  lemma {:induction false} RestoredUntouched(files: Files, entries: seq<Entry>, live: Option<File>, failed: set<nat>,
                                             m: nat, b: nat, n: Name)
    requires m <= b <= |entries| && forall i :: 0 <= i < |entries| ==> Accepted(files, entries[i])
    requires forall i :: m <= i < b ==> entries[i].target != n
    ensures Restored(files, entries, live, failed, m, b, n) == live
    decreases b - m
  {
    if m < b { RestoredUntouched(files, entries, live, failed, m + 1, b, n); }
  }

  /** The first backup taken of a target holds its original file. */
  ghost predicate FirstBackup(entries: seq<Entry>, i: nat, b: nat) {
    i < b <= |entries| && forall j :: 0 <= j < i ==> entries[j].target != entries[i].target
  }

  /** If rollback put back the first backup of every target it moved, each target is as it was. */
  lemma {:induction false} RestoredToOriginal(files: Files, entries: seq<Entry>, live: Option<File>, failed: set<nat>,
                                              m: nat, b: nat, n: Name)
    requires m <= b <= |entries| && forall i :: 0 <= i < |entries| ==> Accepted(files, entries[i])
    requires forall j :: 0 <= j < m ==> entries[j].target != n
    requires forall i :: FirstBackup(entries, i, b) ==> i !in failed
    requires (forall i :: 0 <= i < b ==> entries[i].target != n) ==> live == FileUnder(files, n)
    ensures Restored(files, entries, live, failed, m, b, n) == FileUnder(files, n)
    decreases b - m
  {
    if m < b {
      if entries[m].target == n {
        assert FirstBackup(entries, m, b);
        AfterUntouched(files, entries, m, n);
      } else {
        RestoredToOriginal(files, entries, live, failed, m + 1, b, n);
      }
    }
  }

  /** All-or-nothing: a failed swap leaves every file as it was when the first backup of each moved
      target could be renamed back, whatever other rollback renames failed. */
  lemma RollbackRestores(files: Files, entries: seq<Entry>, report: Report, n: Name)
    requires report.swapped <= report.saved <= report.swapped + 1 && report.saved <= |entries|
    requires forall i :: 0 <= i < |entries| ==> Accepted(files, entries[i])
    requires forall i :: FirstBackup(entries, i, report.saved) ==> i !in report.failed
    ensures RolledBackTo(files, entries, report, n) == FileUnder(files, n)
  {
    var live := Stopped(files, entries, report.swapped, report.saved, n);
    if forall i :: 0 <= i < report.saved ==> entries[i].target != n {
      AfterUntouched(files, entries, report.swapped, n);
    }
    RestoredToOriginal(files, entries, live, report.failed, 0, report.saved, n);
  }

  lemma SweptRollback(now: Files, after: Files, files: Files, entries: seq<Entry>, temps: seq<Name>, backups: seq<Name>,
                      items: seq<Item>, report: Report)
    requires ItemsOf(files, entries, temps, backups, items) && |items| == |entries|
    requires report.swapped <= report.saved <= report.swapped + 1 && report.saved <= |entries|
    requires RollbackState(now, files, entries, items, report.swapped, report.saved, 0, report.failed)
    requires Swept(now, after, items)
    ensures forall n: Name {:trigger FileUnder(after, n)} ::
      FileUnder(after, n) == RolledBackTo(files, entries, report, n)
    ensures report.failed == {} ==> after == files
  {
    forall n: Name ensures FileUnder(after, n) == RolledBackTo(files, entries, report, n) {
      if Ordinary(items, n) {
        assert FileUnder(now, n) == RolledBackTo(files, entries, report, n);
      } else {
        AfterUntouched(files, entries, report.swapped, n);
        RestoredUntouched(files, entries, Stopped(files, entries, report.swapped, report.saved, n),
                          report.failed, 0, report.saved, n);
      }
    }
    if report.failed == {} {
      forall n: Name ensures FileUnder(after, n) == FileUnder(files, n) {
        RollbackRestores(files, entries, report, n);
      }
      SameFiles(after, files);
    }
  }

  lemma CleanSuccess(now: Files, after: Files, files: Files, entries: seq<Entry>, temps: seq<Name>, backups: seq<Name>,
                     items: seq<Item>, ok: bool)
    requires ItemsOf(files, entries, temps, backups, items) && |items| == |entries|
    requires SwapState(now, files, entries, items, |entries|, |entries|)
    requires forall n: Name {:trigger FileUnder(after, n)} ::
               (forall i :: 0 <= i < |items| ==> n != items[i].backup) ==> FileUnder(after, n) == FileUnder(now, n)
    requires ok ==> forall i :: 0 <= i < |items| ==> FileUnder(after, items[i].backup) == None
    ensures forall n: Name {:trigger FileUnder(after, n)} ::
              n !in backups || ok ==> FileUnder(after, n) == After(files, entries, |entries|, n)
  {
    forall n: Name | n !in backups || ok ensures FileUnder(after, n) == After(files, entries, |entries|, n) {
      if !Ordinary(items, n) {
        var i :| 0 <= i < |items| && (n == items[i].temp || n == items[i].backup);
        AfterUntouched(files, entries, |entries|, n);
        if n == items[i].temp {
          assert FileUnder(now, n) == None;
        } else {
          assert backups[i] == n;
        }
      } else {
        assert FileUnder(now, n) == After(files, entries, |entries|, n);
      }
    }
  }

  // ---------------------------------------------------------------- what the commit promises

  /** An entry whose replacement differs from the file it replaces. */
  ghost predicate Changes(files: Files, e: Entry)
    requires Accepted(files, e)
  {
    Replacement(files[e.target], e.content.value) != files[e.target]
  }

  /** The last of the first `k` entries with target `n`, if there is one. */
  function LastWriter(entries: seq<Entry>, k: nat, n: Name): Option<nat>
    requires k <= |entries|
  {
    if k == 0 then None else if entries[k - 1].target == n then Some(k - 1) else LastWriter(entries, k - 1, n)
  }

  /** The first backup of `n` from `m` on that could be renamed back, or `b` if there is none. */
  function FirstReturned(entries: seq<Entry>, failed: set<nat>, m: nat, b: nat, n: Name): (r: nat)
    requires m <= b <= |entries|
    ensures m <= r <= b
    decreases b - m
  {
    if m == b || (entries[m].target == n && m !in failed) then m else FirstReturned(entries, failed, m + 1, b, n)
  }

  /** Whose content a failed swap leaves under a name. */
  datatype Left = Original | OfEntry(index: nat) | Nothing

  function Writer(entries: seq<Entry>, k: nat, n: Name): Left
    requires k <= |entries|
  {
    var w := LastWriter(entries, k, n);
    if w.None? then Original else OfEntry(w.value)
  }

  /** Read off the report alone: which renames happened and which failed. */
  function LeftUnder(entries: seq<Entry>, report: Report, n: Name): Left
    requires report.swapped <= report.saved <= report.swapped + 1 && report.saved <= |entries|
  {
    var r := FirstReturned(entries, report.failed, 0, report.saved, n);
    if r < report.saved then Writer(entries, r, n)
    else if report.swapped < report.saved && entries[report.swapped].target == n then Nothing
    else Writer(entries, report.swapped, n)
  }

  ghost function Content(files: Files, entries: seq<Entry>, left: Left, n: Name): Option<File>
    requires left.OfEntry? ==>
               left.index < |entries| && Accepted(files, entries[left.index]) && entries[left.index].target == n
  {
    match left
    case Original => FileUnder(files, n)
    case OfEntry(j) => Some(Replacement(files[n], entries[j].content.value))
    case Nothing => None
  }

  lemma {:induction false} AfterIsWriters(files: Files, entries: seq<Entry>, k: nat, n: Name)
    requires k <= |entries| && forall i :: 0 <= i < |entries| ==> Accepted(files, entries[i])
    ensures var w := Writer(entries, k, n);
            && (w.OfEntry? ==> w.index < k && entries[w.index].target == n)
            && After(files, entries, k, n) == Content(files, entries, w, n)
  {
    if k > 0 && entries[k - 1].target != n { AfterIsWriters(files, entries, k - 1, n); }
  }

  lemma {:induction false} RestoredIsReturned(files: Files, entries: seq<Entry>, live: Option<File>, failed: set<nat>,
                                              m: nat, b: nat, n: Name)
    requires m <= b <= |entries| && forall i :: 0 <= i < |entries| ==> Accepted(files, entries[i])
    ensures var r := FirstReturned(entries, failed, m, b, n);
            Restored(files, entries, live, failed, m, b, n) == if r < b then After(files, entries, r, n) else live
    decreases b - m
  {
    if m < b && !(entries[m].target == n && m !in failed) {
      RestoredIsReturned(files, entries, live, failed, m + 1, b, n);
    }
  }

  /** The name holds its original again: no entry's content is left under it, or one that changes nothing. */
  ghost predicate Undone(files: Files, entries: seq<Entry>, report: Report, n: Name)
    requires report.swapped <= report.saved <= report.swapped + 1 && report.saved <= |entries|
    requires forall i :: 0 <= i < |entries| ==> Accepted(files, entries[i])
  {
    var left := LeftUnder(entries, report, n);
    left.Original? || (left.OfEntry? && left.index < |entries| && !Changes(files, entries[left.index]))
  }

  /** The exact condition for every name and every batch: a failed swap is undone under a name if and only
      if what the successful renames leave there, as the report tells, is the original or the content of an
      entry that changes nothing. Otherwise the original content is under no name at all, because the
      backup is unlinked afterwards. */
  lemma AllOrNothingExactly(files: Files, entries: seq<Entry>, report: Report, n: Name)
    requires report.swapped <= report.saved <= report.swapped + 1 && report.saved <= |entries|
    requires forall i :: 0 <= i < |entries| ==> Accepted(files, entries[i])
    ensures RolledBackTo(files, entries, report, n) == FileUnder(files, n) <==> Undone(files, entries, report, n)
  {
    var live := Stopped(files, entries, report.swapped, report.saved, n);
    var r := FirstReturned(entries, report.failed, 0, report.saved, n);
    RestoredIsReturned(files, entries, live, report.failed, 0, report.saved, n);
    AfterIsWriters(files, entries, r, n);
    AfterIsWriters(files, entries, report.swapped, n);
    var left := LeftUnder(entries, report, n);
    if left.Nothing? { assert Accepted(files, entries[report.swapped]); }
    if left.OfEntry? { assert Accepted(files, entries[left.index]); }
  }

  /** For a target that each of its entries changes, everything hangs on its first backup. */
  lemma FirstBackupDecides(files: Files, entries: seq<Entry>, report: Report, i: nat)
    requires report.swapped <= report.saved <= report.swapped + 1 && report.saved <= |entries|
    requires forall j :: 0 <= j < |entries| ==> Accepted(files, entries[j])
    requires FirstBackup(entries, i, report.saved)
    requires forall j :: 0 <= j < |entries| && entries[j].target == entries[i].target ==> Changes(files, entries[j])
    ensures RolledBackTo(files, entries, report, entries[i].target) == FileUnder(files, entries[i].target)
            <==> i !in report.failed
  {
    var n := entries[i].target;
    AllOrNothingExactly(files, entries, report, n);
    ReturnedFirst(entries, report.failed, 0, i, report.saved);
    var r := FirstReturned(entries, report.failed, 0, report.saved, n);
    WriterAfter(entries, r, i);
    WriterAfter(entries, report.swapped, i);
  }

  lemma {:induction false} ReturnedFirst(entries: seq<Entry>, failed: set<nat>, m: nat, i: nat, b: nat)
    requires m <= i && FirstBackup(entries, i, b)
    ensures var r := FirstReturned(entries, failed, m, b, entries[i].target); if i in failed then r > i else r == i
    decreases i - m
  {
    if m < i { ReturnedFirst(entries, failed, m + 1, i, b); }
  }

  /** Past the first entry of a target the last writer is an entry of it, and before it there is none. */
  lemma {:induction false} WriterAfter(entries: seq<Entry>, k: nat, i: nat)
    requires k <= |entries| && FirstBackup(entries, i, |entries|)
    ensures var w := Writer(entries, k, entries[i].target);
            if k <= i then w.Original? else w.OfEntry? && w.index < k && entries[w.index].target == entries[i].target
  {
    if k > 0 { WriterAfter(entries, k - 1, i); }
  }

  lemma {:induction false} LastContents(files: Files, entries: seq<Entry>, k: nat, i: nat)
    requires i < k <= |entries| && forall j :: 0 <= j < |entries| ==> Accepted(files, entries[j])
    requires forall j :: i < j < k ==> entries[j].target != entries[i].target
    ensures After(files, entries, k, entries[i].target)
         == Some(Regular(entries[i].content.value, files[entries[i].target].mode % 512))
  {
    assert Accepted(files, entries[k - 1]);
    if i < k - 1 { LastContents(files, entries, k - 1, i); }
  }

  /** On success a target holds the content of its last entry with its own permission bits; every
      name that no entry mentions is unchanged. */
  lemma CommittedContents(files: Files, entries: seq<Entry>, k: nat, n: Name)
    requires k <= |entries| && forall i :: 0 <= i < |entries| ==> Accepted(files, entries[i])
    ensures (forall i :: 0 <= i < k ==> entries[i].target != n) ==> After(files, entries, k, n) == FileUnder(files, n)
    ensures forall i :: 0 <= i < k && entries[i].target == n && (forall j :: i < j < k ==> entries[j].target != n) ==>
              After(files, entries, k, n) == Some(Regular(entries[i].content.value, files[n].mode % 512))
  {
    if forall i :: 0 <= i < k ==> entries[i].target != n { AfterUntouched(files, entries, k, n); }
    forall i | 0 <= i < k && entries[i].target == n && (forall j :: i < j < k ==> entries[j].target != n)
      ensures After(files, entries, k, n) == Some(Regular(entries[i].content.value, files[n].mode % 512))
    {
      LastContents(files, entries, k, i);
    }
  }
}
