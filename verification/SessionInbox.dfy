/** The supervisor inbox of one session: manual order, and profile mutations that take effect once. */
module SessionInbox {
  import opened Wrappers

  type Id = nat

  datatype ItemStatus = Queued | Started | Deleted

  datatype Decision = Pending | Deferred | Decided

  /** `urgency` runs from 1 (low) to 4 (critical); `linked` items belong to a workspace goal. */
  datatype Item = Item(
    id: Id, request: nat, content: string, status: ItemStatus, decision: Decision, position: nat, manual: bool,
    urgency: nat, priority: int, createdAt: int, linked: bool)

  datatype Identity = Identity(principal: nat, endpoint: nat, key: nat)

  /** `edited` are the edited items as they stood after the mutation. */
  datatype Receipt = Receipt(identity: Identity, payload: nat, expected: nat, edited: seq<Item>, resulting: nat)

  datatype Inbox = Inbox(items: seq<Item>, revision: Option<nat>, receipts: seq<Receipt>)

  datatype Result =
    | Succeeded(edited: seq<Item>, revision: nat, replayed: bool)
    | IdempotencyConflict
    | NotFound
    | ConcurrencyConflict(current: nat)
    | StateConflict

  // ---------------------------------------------------------------- the order of the queue

  /** The ORDER BY of the claim and of the listing; total on items with different ids. */
  predicate Before(a: Item, b: Item) {
    if a.manual != b.manual then a.manual
    else if a.manual && a.position != b.position then a.position < b.position
    else if a.urgency != b.urgency then a.urgency > b.urgency
    else if a.priority != b.priority then a.priority > b.priority
    else if a.position != b.position then a.position < b.position
    else if a.createdAt != b.createdAt then a.createdAt < b.createdAt
    else a.id < b.id
  }

  predicate UniqueIds(items: seq<Item>) {
    forall i, j :: 0 <= i < j < |items| ==> items[i].id != items[j].id
  }

  function IndexOf(items: seq<Item>, id: Id): (i: nat)
    ensures i <= |items|
    ensures i < |items| ==> items[i].id == id
    ensures forall k :: 0 <= k < i ==> items[k].id != id
  {
    if items == [] then 0 else if items[0].id == id then 0 else 1 + IndexOf(items[1..], id)
  }

  predicate Claimable(item: Item) {
    item.status.Queued? && item.decision.Pending?
  }

  /** The first claimable item in queue order: its index, or the length if there is none. */
  function First(items: seq<Item>): (i: nat)
    ensures i <= |items|
    ensures i < |items| ==> Claimable(items[i])
    ensures i == |items| ==> forall k :: 0 <= k < |items| ==> !Claimable(items[k])
    ensures i < |items| ==> forall k :: 0 <= k < |items| && Claimable(items[k]) ==> !Before(items[k], items[i])
  {
    if items == [] then 0
    else
      var n := |items| - 1;
      var i := First(items[..n]);
      if i < n then if Claimable(items[n]) && Before(items[n], items[i]) then n else i
      else if Claimable(items[n]) then n else n + 1
  }

  // ---------------------------------------------------------------- the order, in columns

  /** Neither manual order decides between the two. */
  predicate SameLine(a: Item, b: Item) {
    a.manual == b.manual && (a.manual ==> a.position == b.position)
  }

  /** On the columns: manual items stand first, by position; the others by urgency and priority, both
      descending, then by position, creation time and id. */
  predicate Precedes(a: Item, b: Item) {
    && (b.manual ==> a.manual)
    && (a.manual && b.manual ==> a.position <= b.position)
    && (SameLine(a, b) ==> a.urgency >= b.urgency)
    && (SameLine(a, b) && a.urgency == b.urgency ==> a.priority >= b.priority)
    && (SameLine(a, b) && a.urgency == b.urgency && a.priority == b.priority ==> a.position <= b.position)
    && (SameLine(a, b) && (a.urgency, a.priority, a.position) == (b.urgency, b.priority, b.position) ==>
          a.createdAt <= b.createdAt && (a.createdAt == b.createdAt ==> a.id <= b.id))
  }

  /** Row `i` is queued and pending, and no other such row stands before it. */
  predicate Heads(items: seq<Item>, i: nat) {
    && i < |items| && items[i].status.Queued? && items[i].decision.Pending?
    && forall k :: 0 <= k < |items| && items[k].status.Queued? && items[k].decision.Pending? ==>
         Precedes(items[i], items[k])
  }

  lemma FirstHeads(items: seq<Item>)
    ensures First(items) < |items| ==> Heads(items, First(items))
    ensures First(items) == |items| ==>
              forall k :: 0 <= k < |items| ==> !(items[k].status.Queued? && items[k].decision.Pending?)
  {
    var i := First(items);
    if i < |items| {
      forall k | 0 <= k < |items| && items[k].status.Queued? && items[k].decision.Pending?
        ensures Precedes(items[i], items[k])
      {
        assert Claimable(items[k]);
        assert !Before(items[k], items[i]);
      }
    } else {
      forall k | 0 <= k < |items| ensures !(items[k].status.Queued? && items[k].decision.Pending?) {
        assert !Claimable(items[k]);
      }
    }
  }

  // ---------------------------------------------------------------- edits

  datatype Edit =
    | Rewrite(id: Id, content: string)
    | Reorder(ids: seq<Id>)
    | Delete(id: Id)
    | Decide(id: Id, defer: bool)
    | Merge(source: Id, target: Id)

  predicate Editable(items: seq<Item>, id: Id) {
    var i := IndexOf(items, id); i < |items| && items[i].status.Queued? && !items[i].linked
  }

  predicate QueuedId(items: seq<Item>, id: Id) {
    var i := IndexOf(items, id); i < |items| && items[i].status.Queued?
  }

  function QueuedCount(items: seq<Item>): nat {
    if items == [] then 0 else QueuedCount(items[..|items| - 1]) + if items[|items| - 1].status.Queued? then 1 else 0
  }

  predicate Distinct(ids: seq<Id>) {
    forall i, j :: 0 <= i < j < |ids| ==> ids[i] != ids[j]
  }

  /** The given ids are exactly the queued ones, each once. */
  predicate Complete(items: seq<Item>, ids: seq<Id>) {
    |ids| == QueuedCount(items) && Distinct(ids) && forall i :: 0 <= i < |ids| ==> QueuedId(items, ids[i])
  }

  function PositionIn(ids: seq<Id>, id: Id): (i: nat)
    ensures i <= |ids|
    ensures i < |ids| ==> ids[i] == id
    ensures i == |ids| ==> id !in ids
  {
    if ids == [] then 0 else if ids[0] == id then 0 else 1 + PositionIn(ids[1..], id)
  }

  function Moved(item: Item, ids: seq<Id>): Item {
    if item.status.Queued? then item.(position := PositionIn(ids, item.id) + 1, manual := true) else item
  }

  function Reordered(items: seq<Item>, ids: seq<Id>): seq<Item> {
    seq(|items|, i requires 0 <= i < |items| => Moved(items[i], ids))
  }

  function Merged(target: Item, source: Item): Item {
    target.(content := target.content + "\n\nAdditional queued instruction:\n" + source.content,
            priority := if source.priority > target.priority then source.priority else target.priority,
            urgency := if source.urgency > target.urgency then source.urgency else target.urgency, decision := Pending)
  }

  /** The work of one edit; None where it has no effect. */
  function Work(items: seq<Item>, e: Edit): Option<seq<Item>> {
    match e
    case Rewrite(id, content) =>
      if content != "" && Editable(items, id)
        then var i := IndexOf(items, id); Some(items[i := items[i].(content := content)]) else None
    case Reorder(ids) => if Complete(items, ids) then Some(Reordered(items, ids)) else None
    case Delete(id) =>
      if Editable(items, id)
        then var i := IndexOf(items, id); Some(items[i := items[i].(status := Deleted, decision := Decided)]) else None
    case Decide(id, defer) =>
      if Editable(items, id)
      then var i := IndexOf(items, id); Some(items[i := items[i].(decision := if defer then Deferred else Pending)])
        else None
    case Merge(source, target) =>
      if source != target && Editable(items, source) && Editable(items, target) then
        var i, j := IndexOf(items, source), IndexOf(items, target);
        Some(items[j := Merged(items[j], items[i])][i := items[i].(status := Deleted, decision := Decided)])
      else None
  }

  function EditedIds(e: Edit): seq<Id> {
    match e
    case Rewrite(id, _) => [id]
    case Reorder(ids) => ids
    case Delete(id) => [id]
    case Decide(id, _) => [id]
    case Merge(source, target) => [source, target]
  }

  /** The rows of the given ids, in that order. */
  function Snapshots(items: seq<Item>, ids: seq<Id>): seq<Item> {
    if ids == [] then []
    else
      var k := IndexOf(items, ids[|ids| - 1]);
      Snapshots(items, ids[..|ids| - 1]) + if k < |items| then [items[k]] else []
  }

  /** Everything of a row but what an edit may change. */
  predicate SameRow(a: Item, b: Item) {
    && (a.id, a.request, a.position, a.manual, a.createdAt, a.linked)
       == (b.id, b.request, b.position, b.manual, b.createdAt, b.linked)
  }

  /** What an edit other than a reorder leaves, in columns: it goes through only where every row it names is
      queued and belongs to no goal; all other rows stay, and of the named ones only what the edit is
      about changes. */
  lemma EditedInColumns(items: seq<Item>, e: Edit, left: seq<Item>, k: nat)
    requires UniqueIds(items) && !e.Reorder? && Work(items, e) == Some(left) && k < |items|
    ensures |left| == |items|
    ensures items[k].id !in EditedIds(e) ==> left[k] == items[k]
    ensures items[k].id in EditedIds(e) ==> items[k].status.Queued? && !items[k].linked && SameRow(left[k], items[k])
    ensures e.Rewrite? && items[k].id == e.id ==> left[k] == items[k].(content := e.content) && e.content != ""
    ensures e.Delete? && items[k].id == e.id ==> left[k] == items[k].(status := Deleted, decision := Decided)
    ensures e.Decide? && items[k].id == e.id ==>
              && left[k] == items[k].(decision := left[k].decision)
              && (left[k].decision.Pending? <==> !e.defer) && (left[k].decision.Deferred? <==> e.defer)
    ensures e.Merge? && items[k].id == e.source ==> left[k] == items[k].(status := Deleted, decision := Decided)
    ensures e.Merge? && items[k].id == e.target ==>
              && left[k].status.Queued? && left[k].decision.Pending?
              && items[k].content <= left[k].content
              && exists j :: && 0 <= j < |items| && items[j].id == e.source
                             && MergedInto(items[k], items[j], left[k])
  {
    IndexOfId(items, k);
    hide IndexOf, UniqueIds;
  }

  /** Both instructions are kept, and the stronger of each rank. */
  predicate MergedInto(target: Item, source: Item, merged: Item) {
    && |target.content| + |source.content| <= |merged.content|
    && merged.content[|merged.content| - |source.content|..] == source.content
    && target.priority <= merged.priority && source.priority <= merged.priority
    && merged.priority in {target.priority, source.priority}
    && target.urgency <= merged.urgency && source.urgency <= merged.urgency
    && merged.urgency in {target.urgency, source.urgency}
  }

  // ---------------------------------------------------------------- transactions

  function Touched(revision: Option<nat>): Option<nat> {
    Some(if revision.None? then 2 else revision.value + 1)
  }

  function NextPosition(items: seq<Item>): nat {
    if items == [] then 1
    else
      var rest := NextPosition(items[..|items| - 1]);
      var last := items[|items| - 1];
      if last.status.Queued? && rest <= last.position then last.position + 1 else rest
  }

  predicate RequestKnown(items: seq<Item>, request: nat) {
    exists i :: 0 <= i < |items| && items[i].request == request
  }

  datatype Event =
    | Enqueue(id: Id, request: nat, content: string, urgency: nat, priority: int, now: int, linked: bool)
    | ClaimNext(occupied: bool)
    | ClaimNow(id: Id, occupied: bool)
    | Plain(edit: Edit)
    | Discard(id: Id)
    | Profile(identity: Identity, payload: nat, expected: nat, edit: Edit)

  function Taken(item: Item): Item {
    item.(status := Started, decision := Decided)
  }

  function Claim(s: Inbox, i: nat): Inbox
    requires i < |s.items|
  {
    s.(items := s.items[i := Taken(s.items[i])], revision := Touched(Touched(s.revision)))
  }

  /** The stored receipt of an identity: its index, or the length if there is none. */
  function ReceiptOf(receipts: seq<Receipt>, identity: Identity): (i: nat)
    ensures i <= |receipts|
    ensures i < |receipts| ==> receipts[i].identity == identity
    ensures forall k :: 0 <= k < i ==> receipts[k].identity != identity
  {
    if receipts == [] then 0 else if receipts[0].identity == identity then 0 else 1 + ReceiptOf(receipts[1..], identity)
  }

  /** `mutateSessionInboxProfile`. */
  function Mutate(s: Inbox, identity: Identity, payload: nat, expected: nat, edit: Edit): (Inbox, Result) {
    var k := ReceiptOf(s.receipts, identity);
    if k < |s.receipts| then
      var r := s.receipts[k];
      (s, if r.payload == payload && r.expected == expected then Succeeded(r.edited, r.resulting, true)
       else IdempotencyConflict)
    else if s.revision.None? then (s, NotFound)
    else if s.revision.value != expected then (s, ConcurrencyConflict(s.revision.value))
    else
      var w := Work(s.items, edit);
      if w.None? then (s, StateConflict)
      else
        var revision := Touched(s.revision);
        var edited := Snapshots(w.value, EditedIds(edit));
        (Inbox(w.value, revision, s.receipts + [Receipt(identity, payload, expected, edited, revision.value)]),
         Succeeded(edited, revision.value, false))
  }

  function Next(s: Inbox, e: Event): Inbox {
    match e
    case Enqueue(id, request, content, urgency, priority, now, linked) =>
      if RequestKnown(s.items, request) || IndexOf(s.items, id) < |s.items| then s
      else s.(items :=
              s.items + [Item(id, request, content, Queued, Pending, NextPosition(s.items), false, urgency, priority,
                              now, linked)],
              revision := Touched(s.revision))
    case ClaimNext(occupied) => if occupied || First(s.items) == |s.items| then s else Claim(s, First(s.items))
    case ClaimNow(id, occupied) => if occupied || !QueuedId(s.items, id) then s else Claim(s, IndexOf(s.items, id))
    case Plain(edit) =>
      var w := Work(s.items, edit);
      if w.None? then s else s.(items := w.value, revision := Touched(s.revision))
    case Discard(id) =>
      if !QueuedId(s.items, id) then s
      else var i := IndexOf(s.items, id); s.(items := s.items[..i] + s.items[i + 1..], revision := Touched(s.revision))
    case Profile(identity, payload, expected, edit) => Mutate(s, identity, payload, expected, edit).0
  }

  function History(s: Inbox, events: seq<Event>): Inbox
    decreases |events|
  {
    if events == [] then s else History(Next(s, events[0]), events[1..])
  }

  lemma {:induction false} NextPositionIsLast(items: seq<Item>, k: nat)
    requires k < |items| && items[k].status.Queued?
    ensures items[k].position < NextPosition(items)
  {
    if k < |items| - 1 { NextPositionIsLast(items[..|items| - 1], k); }
  }

  /** An enqueued item comes in queued, pending, outside the manual order and behind every queued position,
      unless its request is known; all other rows stay. */
  lemma EnqueuedInColumns(s: Inbox, e: Event)
    requires e.Enqueue? && forall j :: 0 <= j < |s.items| ==> s.items[j].id != e.id
    ensures var left := Next(s, e).items;
            if exists j :: 0 <= j < |s.items| && s.items[j].request == e.request then left == s.items
            else
              && |left| == |s.items| + 1 && left[..|s.items|] == s.items
              && var item := left[|s.items|];
                 && (item.id, item.request, item.content) == (e.id, e.request, e.content)
                 && item.status.Queued? && item.decision.Pending? && !item.manual
                 && (item.urgency, item.priority, item.createdAt, item.linked)
                    == (e.urgency, e.priority, e.now, e.linked)
                 && forall k :: 0 <= k < |s.items| && s.items[k].status.Queued? ==>
                      s.items[k].position < item.position
  {
    forall k | 0 <= k < |s.items| && s.items[k].status.Queued? ensures s.items[k].position < NextPosition(s.items) {
      NextPositionIsLast(s.items, k);
    }
  }

  /** The revision never falls, and whatever changes an item raises it. */
  lemma RevisionRises(s: Inbox, e: Event)
    ensures Revision(s) <= Revision(Next(s, e))
    ensures Next(s, e).items != s.items ==> Revision(s) < Revision(Next(s, e))
  {
    hide Work, IndexOf, First, NextPosition, ReceiptOf, Snapshots;
  }

  /** Claiming a given item takes exactly that row, if it is queued and the session is free; discarding removes
      exactly that row, if it is queued. */
  lemma GivenInColumns(s: Inbox, id: Id, occupied: bool, k: nat)
    requires UniqueIds(s.items) && k < |s.items| && s.items[k].id == id
    ensures var u := Next(s, ClaimNow(id, occupied));
            if !occupied && s.items[k].status.Queued?
            then u.items == s.items[k := s.items[k].(status := Started, decision := Decided)] else u == s
    ensures var u := Next(s, Discard(id));
            if s.items[k].status.Queued? then u.items == s.items[..k] + s.items[k + 1..] else u == s
  {
    IndexOfId(s.items, k);
    hide IndexOf;
  }

  /** An unknown item is neither claimed nor discarded. */
  lemma UnknownIsLeft(s: Inbox, id: Id, occupied: bool)
    requires forall k :: 0 <= k < |s.items| ==> s.items[k].id != id
    ensures Next(s, ClaimNow(id, occupied)) == s && Next(s, Discard(id)) == s
  {
  }

  /** Row `i` of the snapshots is the row of the i-th id. */
  lemma {:induction false} SnapshotsAreRows(items: seq<Item>, ids: seq<Id>, i: nat)
    requires i < |ids| && forall j :: 0 <= j < |ids| ==> IndexOf(items, ids[j]) < |items|
    ensures |Snapshots(items, ids)| == |ids| && Snapshots(items, ids)[i] in items
    ensures Snapshots(items, ids)[i].id == ids[i]
  {
    var n := |ids| - 1;
    if n > 0 { SnapshotsAreRows(items, ids[..n], if i < n then i else 0); }
  }

  /** The answer to a mutation, in columns: an identity seen before is answered from its receipt or refused; a
      new one needs a profile, the revision it expects, and an edit that goes through; then its receipt is
      written with the new revision. */
  lemma MutatesExactlyWhen(s: Inbox, identity: Identity, payload: nat, expected: nat, edit: Edit)
    requires forall j, k :: 0 <= j < k < |s.receipts| ==> s.receipts[j].identity != s.receipts[k].identity
    ensures var (u, result) := Mutate(s, identity, payload, expected, edit);
            if exists r :: r in s.receipts && r.identity == identity then
              && u == s
              && exists r :: && r in s.receipts && r.identity == identity
                             && result == if r.payload == payload && r.expected == expected
                                then Succeeded(r.edited, r.resulting, true) else IdempotencyConflict
            else if s.revision == None then u == s && result == NotFound
            else if s.revision.value != expected then u == s && result == ConcurrencyConflict(s.revision.value)
            else if Work(s.items, edit) == None then u == s && result == StateConflict
            else && result.Succeeded? && !result.replayed && result.revision == expected + 1
                 && u.items == Work(s.items, edit).value && u.revision == Some(expected + 1)
                 && u.receipts == s.receipts + [Receipt(identity, payload, expected, result.edited, expected + 1)]
                 && result.edited == Snapshots(u.items, EditedIds(edit))
  {
    var k := ReceiptOf(s.receipts, identity);
    if k < |s.receipts| { assert s.receipts[k] in s.receipts; }
    hide Work, ReceiptOf;
  }

  // ---------------------------------------------------------------- mutations take effect once

  function Revision(s: Inbox): nat {
    if s.revision.None? then 0 else s.revision.value
  }

  /** Receipts in the order they were written: expected and resulting revisions never overlap, and an
      identity occurs once. */
  predicate Ledger(s: Inbox) {
    && (forall k :: 0 <= k < |s.receipts| ==> s.receipts[k].expected < s.receipts[k].resulting <= Revision(s))
    && (forall j, k :: 0 <= j < k < |s.receipts| ==> s.receipts[j].resulting <= s.receipts[k].expected)
    && (forall j, k :: 0 <= j < k < |s.receipts| ==> s.receipts[j].identity != s.receipts[k].identity)
  }

  lemma NextLedger(s: Inbox, e: Event)
    requires Ledger(s)
    ensures Ledger(Next(s, e)) && s.receipts <= Next(s, e).receipts && Revision(s) <= Revision(Next(s, e))
    ensures Next(s, e).receipts != s.receipts ==>
              e.Profile? && |Next(s, e).receipts| == |s.receipts| + 1 && Revision(s) < Revision(Next(s, e))
  {
    hide Work, First, IndexOf, NextPosition;
  }

  lemma {:induction false} HistoryLedger(s: Inbox, events: seq<Event>)
    requires Ledger(s)
    ensures Ledger(History(s, events)) && s.receipts <= History(s, events).receipts
      && Revision(s) <= Revision(History(s, events))
    decreases |events|
  {
    hide Next, Ledger;
    if events != [] {
      NextLedger(s, events[0]);
      HistoryLedger(Next(s, events[0]), events[1..]);
    }
  }

  lemma ReceiptFound(receipts: seq<Receipt>, k: nat)
    requires k < |receipts| && forall i, j :: 0 <= i < j < |receipts| ==> receipts[i].identity != receipts[j].identity
    ensures ReceiptOf(receipts, receipts[k].identity) == k
  {
  }

  /** After a mutation has succeeded, in every later history and whatever else changed the inbox, the
      same identity never takes effect again: it replays the first stored value, or is refused when its
      payload or expected revision differ. */
  lemma MutationsTakeEffectOnce(s: Inbox, m: Event, events: seq<Event>, again: Event)
    requires Ledger(s) && m.Profile? && again.Profile? && again.identity == m.identity
    requires var o := Mutate(s, m.identity, m.payload, m.expected, m.edit).1; o.Succeeded? && !o.replayed
    ensures var first := Mutate(s, m.identity, m.payload, m.expected, m.edit).1;
            var u := History(Next(s, m), events);
            Mutate(u, again.identity, again.payload, again.expected, again.edit)
            == (u, if again.payload == m.payload && again.expected == m.expected
                   then Succeeded(first.edited, first.revision, true) else IdempotencyConflict)
  {
    hide Work, First, IndexOf, NextPosition;
    NextLedger(s, m);
    HistoryLedger(Next(s, m), events);
    var u := History(Next(s, m), events);
    assert u.receipts[|s.receipts|] == Next(s, m).receipts[|s.receipts|];
    ReceiptFound(u.receipts, |s.receipts|);
    hide ReceiptOf, History;
  }

  /** Two mutations that both took effect never shared an expected revision, and the later one's
      resulting revision is strictly greater. */
  lemma RevisionsStrictlyIncrease(s: Inbox, events: seq<Event>, j: nat, k: nat)
    requires Ledger(s) && j < k < |History(s, events).receipts|
    ensures var r := History(s, events).receipts; r[j].expected < r[k].expected && r[j].resulting < r[k].resulting
  {
    HistoryLedger(s, events);
    hide History;
  }

  // ---------------------------------------------------------------- manual order

  lemma IndexOfId(items: seq<Item>, k: nat)
    requires UniqueIds(items) && k < |items|
    ensures IndexOf(items, items[k].id) == k
  {
  }

  function QueuedSet(items: seq<Item>): set<Id> {
    set i | 0 <= i < |items| && items[i].status.Queued? :: items[i].id
  }

  lemma {:induction false} QueuedSetSize(items: seq<Item>)
    requires UniqueIds(items)
    ensures |QueuedSet(items)| == QueuedCount(items)
  {
    if items != [] {
      var n := |items| - 1;
      QueuedSetSize(items[..n]);
      QueuedSetGrows(items);
      hide QueuedSet;
    }
  }

  lemma QueuedSetGrows(items: seq<Item>)
    requires items != [] && UniqueIds(items)
    ensures var front, last := items[..|items| - 1], items[|items| - 1];
            && last.id !in QueuedSet(front)
            && QueuedSet(items) == QueuedSet(front) + if last.status.Queued? then {last.id} else {}
  {
    var n := |items| - 1;
    forall x
      ensures x in QueuedSet(items) <==> x in QueuedSet(items[..n]) || (items[n].status.Queued? && x == items[n].id)
    {
      if x in QueuedSet(items[..n]) {
        var i :| 0 <= i < n && items[..n][i].status.Queued? && items[..n][i].id == x;
        assert items[i].id == x;
      }
      if x in QueuedSet(items) {
        var i :| 0 <= i < |items| && items[i].status.Queued? && items[i].id == x;
        if i < n { assert items[..n][i].id == x; }
      }
    }
  }

  function IdSet(ids: seq<Id>): set<Id> {
    set i | 0 <= i < |ids| :: ids[i]
  }

  lemma {:induction false} IdSetSize(ids: seq<Id>)
    requires Distinct(ids)
    ensures |IdSet(ids)| == |ids|
  {
    if ids != [] {
      var n := |ids| - 1;
      IdSetSize(ids[..n]);
      assert IdSet(ids) == IdSet(ids[..n]) + {ids[n]};
    }
  }

  lemma {:induction false} SameSize(a: set<Id>, b: set<Id>)
    requires a <= b && |a| == |b|
    ensures a == b
  {
    if a != {} {
      var x :| x in a;
      SameSize(a - {x}, b - {x});
    } else {
      assert b == {};
    }
  }

  /** A complete list names every queued item. */
  lemma CompleteNamesAll(items: seq<Item>, ids: seq<Id>)
    requires UniqueIds(items) && Complete(items, ids)
    ensures forall k :: 0 <= k < |items| && items[k].status.Queued? ==> items[k].id in ids
  {
    QueuedSetSize(items);
    IdSetSize(ids);
    forall x | x in IdSet(ids) ensures x in QueuedSet(items) {
      assert QueuedId(items, x) && items[IndexOf(items, x)].id == x;
    }
    SameSize(IdSet(ids), QueuedSet(items));
    forall k | 0 <= k < |items| && items[k].status.Queued? ensures items[k].id in ids {
      assert items[k].id in QueuedSet(items);
    }
  }

  /** A reorder goes through if and only if it names every queued item exactly once, and nothing else. */
  lemma ReorderedExactlyWhen(items: seq<Item>, ids: seq<Id>)
    requires UniqueIds(items)
    ensures Work(items, Reorder(ids)).Some? <==>
              && (forall i, j :: 0 <= i < j < |ids| ==> ids[i] != ids[j])
              && (forall i :: 0 <= i < |ids| ==> QueuedId(items, ids[i]))
              && (forall k :: 0 <= k < |items| && items[k].status.Queued? ==> items[k].id in ids)
  {
    if Complete(items, ids) { CompleteNamesAll(items, ids); }
    if Distinct(ids) && (forall i :: 0 <= i < |ids| ==> QueuedId(items, ids[i]))
       && (forall k :: 0 <= k < |items| && items[k].status.Queued? ==> items[k].id in ids) {
      QueuedSetSize(items);
      IdSetSize(ids);
      forall x ensures x in IdSet(ids) <==> x in QueuedSet(items) {
        if x in IdSet(ids) { assert QueuedId(items, x) && items[IndexOf(items, x)].id == x; }
      }
      assert IdSet(ids) == QueuedSet(items);
    }
  }

  predicate Stored(items: seq<Item>, id: Id) {
    exists k :: 0 <= k < |items| && items[k].id == id && items[k].status.Queued? && !items[k].linked
  }

  /** Any other edit goes through if and only if each item it names is queued and belongs to no goal; a
      rewrite needs content, and a merge two different items. */
  lemma EditedExactlyWhen(items: seq<Item>, e: Edit)
    requires UniqueIds(items) && !e.Reorder?
    ensures Work(items, e).Some? <==>
              && (forall id :: id in EditedIds(e) ==> Stored(items, id))
              && (e.Rewrite? ==> |e.content| > 0) && (e.Merge? ==> e.source != e.target)
  {
    forall id ensures Editable(items, id) <==> Stored(items, id) {
      if Stored(items, id) {
        var k :| 0 <= k < |items| && items[k].id == id && items[k].status.Queued? && !items[k].linked;
        IndexOfId(items, k);
      }
    }
    hide IndexOf, Editable, Stored, UniqueIds;
    if Work(items, e).Some? {
      forall id | id in EditedIds(e) ensures Editable(items, id) {
      }
    } else if e.Merge? {
      assert e.source in EditedIds(e) && e.target in EditedIds(e);
    } else {
      assert e.id in EditedIds(e);
    }
  }

  /** `l` is the queue as it is listed: every queued item once, in queue order. */
  predicate Listing(items: seq<Item>, l: seq<Id>) {
    && Distinct(l) && (forall i :: 0 <= i < |l| ==> QueuedId(items, l[i]))
    && (forall k :: 0 <= k < |items| && items[k].status.Queued? ==> items[k].id in l)
    && (forall i, j :: 0 <= i < j < |l| ==> Before(items[IndexOf(items, l[i])], items[IndexOf(items, l[j])]))
  }

  /** The listed queue in columns: each row precedes every later one. */
  lemma ListedInColumns(items: seq<Item>, l: seq<Id>, i: nat, j: nat)
    requires Listing(items, l) && i < j < |l|
    ensures QueuedId(items, l[i]) && QueuedId(items, l[j])
    ensures Precedes(items[IndexOf(items, l[i])], items[IndexOf(items, l[j])])
  {
    hide IndexOf;
    assert Before(items[IndexOf(items, l[i])], items[IndexOf(items, l[j])]);
  }

  /** Where two listings first differ, each puts its own item before the other's. */
  lemma Ahead(items: seq<Item>, a: seq<Id>, b: seq<Id>, i: nat)
    requires Listing(items, a) && Listing(items, b) && i < |a| && i < |b| && a[..i] == b[..i]
    ensures a[i] == b[i] || Before(items[IndexOf(items, a[i])], items[IndexOf(items, b[i])])
  {
    hide IndexOf, Before;
    assert QueuedId(items, b[i]);
    assert items[IndexOf(items, b[i])].id in a;
    var m :| 0 <= m < |a| && a[m] == b[i];
    assert b[i] !in b[..i];
    assert i <= m;
  }

  lemma ListingAgreesAt(items: seq<Item>, a: seq<Id>, b: seq<Id>, i: nat)
    requires Listing(items, a) && Listing(items, b) && i < |a| && i <= |b| && a[..i] == b[..i]
    ensures i < |b| && a[i] == b[i]
  {
    assert a[i] in b by {
      assert QueuedId(items, a[i]);
      assert items[IndexOf(items, a[i])].id in b;
    }
    assert a[i] !in a[..i] && b[..|b|] == b;
    if i < |b| && a[i] != b[i] {
      Ahead(items, a, b, i);
      Ahead(items, b, a, i);
      assert false;
    }
  }

  lemma {:induction false} ListingIsUnique(items: seq<Item>, a: seq<Id>, b: seq<Id>, i: nat)
    requires Listing(items, a) && Listing(items, b) && i <= |a| && i <= |b| && a[..i] == b[..i]
    ensures a == b
    decreases |a| - i
  {
    if i < |a| {
      ListingAgreesAt(items, a, b, i);
      assert a[..i + 1] == a[..i] + [a[i]] && b[..i + 1] == b[..i] + [b[i]];
      ListingIsUnique(items, a, b, i + 1);
    } else if i < |b| {
      ListingAgreesAt(items, b, a, i);
    }
  }

  lemma ReorderedIndex(items: seq<Item>, ids: seq<Id>, id: Id)
    requires UniqueIds(items)
    ensures UniqueIds(Reordered(items, ids)) && IndexOf(Reordered(items, ids), id) == IndexOf(items, id)
  {
    var r := Reordered(items, ids);
    assert forall k :: 0 <= k < |items| ==> r[k].id == items[k].id;
    var i := IndexOf(items, id);
    if i < |items| { IndexOfId(r, i); }
  }

  lemma {:induction false} PositionOf(ids: seq<Id>, i: nat)
    requires Distinct(ids) && i < |ids|
    ensures PositionIn(ids, ids[i]) == i
  {
    if i > 0 { PositionOf(ids[1..], i - 1); }
  }

  /** After a successful reorder the listed queue is the given list, and nothing else. */
  lemma ReorderListsAsGiven(items: seq<Item>, ids: seq<Id>, l: seq<Id>)
    requires UniqueIds(items) && Complete(items, ids)
    ensures Listing(Reordered(items, ids), l) <==> l == ids
  {
    ReorderedIsListed(items, ids);
    if Listing(Reordered(items, ids), l) { ListingIsUnique(Reordered(items, ids), l, ids, 0); }
    hide Listing;
  }

  lemma ReorderedIsListed(items: seq<Item>, ids: seq<Id>)
    requires UniqueIds(items) && Complete(items, ids)
    ensures Listing(Reordered(items, ids), ids)
  {
    hide IndexOf;
    var r := Reordered(items, ids);
    CompleteNamesAll(items, ids);
    forall i | 0 <= i < |ids|
      ensures QueuedId(r, ids[i]) && r[IndexOf(r, ids[i])].position == i + 1 && r[IndexOf(r, ids[i])].manual
    {
      assert QueuedId(items, ids[i]);
      ReorderedIndex(items, ids, ids[i]);
      PositionOf(ids, i);
    }
    hide Complete;
  }

  /** The manual, claimable items are `ids`, in the order of their positions. */
  predicate Lined(items: seq<Item>, ids: seq<Id>) {
    && UniqueIds(items)
    && (forall i :: 0 <= i < |ids| ==> IndexOf(items, ids[i]) < |items|)
    && (forall i :: 0 <= i < |ids| ==> Claimable(items[IndexOf(items, ids[i])]) && items[IndexOf(items, ids[i])].manual)
    && (forall i, j :: 0 <= i < j < |ids| ==>
        items[IndexOf(items, ids[i])].position < items[IndexOf(items, ids[j])].position)
    && (forall k :: 0 <= k < |items| && Claimable(items[k]) && items[k].manual ==> items[k].id in ids)
  }

  lemma FirstOfLined(items: seq<Item>, ids: seq<Id>)
    requires Lined(items, ids) && ids != []
    ensures First(items) < |items| && items[First(items)].id == ids[0]
  {
    var k := IndexOf(items, ids[0]);
    var f := First(items);
    assert Claimable(items[k]);
    assert f < |items| && !Before(items[k], items[f]);
    var j :| 0 <= j < |ids| && ids[j] == items[f].id;
    IndexOfId(items, f);
  }

  lemma SameIds(items: seq<Item>, left: seq<Item>, id: Id)
    requires UniqueIds(items) && |left| >= |items| && UniqueIds(left)
    requires forall k :: 0 <= k < |items| ==> left[k].id == items[k].id
    requires IndexOf(items, id) < |items|
    ensures IndexOf(left, id) == IndexOf(items, id)
  {
    hide IndexOf;
    IndexOfId(left, IndexOf(items, id));
  }

  lemma ClaimKeepsLine(items: seq<Item>, ids: seq<Id>, f: nat)
    requires Lined(items, ids) && ids != [] && f < |items| && items[f].id == ids[0]
    ensures Lined(items[f := Taken(items[f])], ids[1..])
  {
    hide IndexOf;
    var left, rest := items[f := Taken(items[f])], ids[1..];
    assert forall k :: 0 <= k < |items| ==> left[k].id == items[k].id;
    assert UniqueIds(left);
    IndexOfId(items, f);
    forall i | 0 <= i < |rest| ensures IndexOf(left, rest[i]) == IndexOf(items, ids[i + 1]) != f {
      SameIds(items, left, rest[i]);
    }
    assert forall i :: 0 <= i < |rest| ==> left[IndexOf(left, rest[i])] == items[IndexOf(items, ids[i + 1])];
    forall k | 0 <= k < |left| && Claimable(left[k]) && left[k].manual ensures left[k].id in rest {
      assert k != f && items[k] == left[k] && items[k].id in ids && items[k].id != items[f].id;
    }
  }

  lemma EnqueueKeepsLine(items: seq<Item>, ids: seq<Id>, item: Item)
    requires Lined(items, ids) && IndexOf(items, item.id) == |items| && !item.manual
    ensures Lined(items + [item], ids)
  {
    hide IndexOf;
    var more := items + [item];
    assert UniqueIds(more) by { hide Lined, Claimable; assert forall k :: 0 <= k < |items| ==> items[k].id != item.id; }
    forall i | 0 <= i < |ids| ensures IndexOf(more, ids[i]) == IndexOf(items, ids[i]) < |items| {
      SameIds(items, more, ids[i]);
    }
    assert forall i :: 0 <= i < |ids| ==> more[IndexOf(more, ids[i])] == items[IndexOf(items, ids[i])];
    forall k | 0 <= k < |more| && Claimable(more[k]) && more[k].manual ensures more[k].id in ids {
      assert k < |items| && items[k] == more[k];
    }
    hide UniqueIds, Claimable;
    forall i, j | 0 <= i < j < |ids|
      ensures more[IndexOf(more, ids[i])].position < more[IndexOf(more, ids[j])].position
    {
      assert items[IndexOf(items, ids[i])].position < items[IndexOf(items, ids[j])].position;
    }
  }

  /** The ids taken by the claims of a history, in order. */
  function Claims(s: Inbox, events: seq<Event>): seq<Id>
    decreases |events|
  {
    if events == [] then []
    else
      (if events[0] == ClaimNext(false) && First(s.items) < |s.items| then [s.items[First(s.items)].id] else [])
      + Claims(Next(s, events[0]), events[1..])
  }

  predicate OnlyEnqueuesAndClaims(events: seq<Event>) {
    forall i :: 0 <= i < |events| ==> events[i].Enqueue? || events[i].ClaimNext?
  }

  /** What an enqueue or a claim does to the items. */
  lemma StepItems(s: Inbox, e: Event)
    requires e.Enqueue? || e.ClaimNext?
    ensures var n := Next(s, e).items;
            if e == ClaimNext(false) && First(s.items) < |s.items|
              then n == s.items[First(s.items) := Taken(s.items[First(s.items)])]
            else n == s.items
                 || (|n| == |s.items| + 1 && n == s.items + [n[|s.items|]] && !n[|s.items|].manual
                     && IndexOf(s.items, n[|s.items|].id) == |s.items|)
  {
    hide First, IndexOf, NextPosition;
  }

  lemma {:induction false} ClaimsFollowTheLine(s: Inbox, ids: seq<Id>, events: seq<Event>)
    requires Lined(s.items, ids) && OnlyEnqueuesAndClaims(events)
    ensures Claims(s, events) <= ids || ids <= Claims(s, events)
    decreases |events|
  {
    hide Lined, First, IndexOf, Next;
    if events != [] && ids != [] {
      var e, f := events[0], First(s.items);
      StepItems(s, e);
      FirstOfLined(s.items, ids);
      if e == ClaimNext(false) {
        ClaimKeepsLine(s.items, ids, f);
        ClaimsFollowTheLine(Next(s, e), ids[1..], events[1..]);
        assert ids == [ids[0]] + ids[1..];
      } else {
        if Next(s, e).items != s.items { EnqueueKeepsLine(s.items, ids, Next(s, e).items[|s.items|]); }
        ClaimsFollowTheLine(Next(s, e), ids, events[1..]);
        assert [] + Claims(Next(s, e), events[1..]) == Claims(Next(s, e), events[1..]);
      }
    }
  }

  /** Those of `ids` that wait with a pending decision. */
  function PendingOf(items: seq<Item>, ids: seq<Id>): seq<Id> {
    if ids == [] then []
    else
      var k := IndexOf(items, ids[|ids| - 1]);
      PendingOf(items, ids[..|ids| - 1]) + if k < |items| && items[k].decision.Pending? then [ids[|ids| - 1]] else []
  }

  lemma {:induction false} PositionInPrefix(ids: seq<Id>, id: Id)
    requires ids != [] && id in ids[..|ids| - 1]
    ensures PositionIn(ids, id) == PositionIn(ids[..|ids| - 1], id)
  {
    if ids[0] != id {
      assert ids[..|ids| - 1][1..] == ids[1..][..|ids| - 2];
      PositionInPrefix(ids[1..], id);
    }
  }

  lemma {:induction false} PendingInOrder(items: seq<Item>, ids: seq<Id>)
    requires Distinct(ids)
    ensures var p := PendingOf(items, ids);
            && (forall i, j :: 0 <= i < j < |p| ==> PositionIn(ids, p[i]) < PositionIn(ids, p[j]))
            && (forall x :: x in p <==>
                  x in ids && IndexOf(items, x) < |items| && items[IndexOf(items, x)].decision.Pending?)
  {
    hide IndexOf;
    if ids != [] {
      var n := |ids| - 1;
      PendingInOrder(items, ids[..n]);
      assert ids == ids[..n] + [ids[n]];
      forall x | x in PendingOf(items, ids[..n]) ensures PositionIn(ids, x) == PositionIn(ids[..n], x) < n {
        PositionInPrefix(ids, x);
      }
      PositionOf(ids, n);
      hide PositionIn;
    }
  }

  lemma ReorderLines(items: seq<Item>, ids: seq<Id>)
    requires UniqueIds(items) && Complete(items, ids)
    ensures Lined(Reordered(items, ids), PendingOf(items, ids))
  {
    var r, p := Reordered(items, ids), PendingOf(items, ids);
    CompleteNamesAll(items, ids);
    PendingInOrder(items, ids);
    forall i | 0 <= i < |p|
      ensures IndexOf(r, p[i]) < |r| && Claimable(r[IndexOf(r, p[i])]) && r[IndexOf(r, p[i])].manual
              && r[IndexOf(r, p[i])].position == PositionIn(ids, p[i]) + 1
    {
      assert p[i] in p;
      assert QueuedId(items, p[i]) by { var j :| 0 <= j < |ids| && ids[j] == p[i]; }
      ReorderedIndex(items, ids, p[i]);
    }
    forall k | 0 <= k < |r| && Claimable(r[k]) && r[k].manual ensures r[k].id in p {
      IndexOfId(items, k);
      assert items[k].id in ids;
    }
    ReorderedIndex(items, ids, 0);
    hide IndexOf, PositionIn, PendingOf, Complete;
  }

  // ---------------------------------------------------------------- ids stay unique

  predicate SameIdsAs(items: seq<Item>, left: seq<Item>) {
    |items| == |left| && forall k :: 0 <= k < |items| ==> left[k].id == items[k].id
  }

  lemma WorkKeepsIds(items: seq<Item>, e: Edit)
    requires Work(items, e).Some?
    ensures SameIdsAs(items, Work(items, e).value)
  {
    hide IndexOf, Complete, PositionIn;
  }

  lemma NextUnique(s: Inbox, e: Event)
    requires UniqueIds(s.items)
    ensures UniqueIds(Next(s, e).items)
  {
    hide Work, IndexOf, First, NextPosition, ReceiptOf;
    if e.Plain? || e.Profile? {
      if Work(s.items, e.edit).Some? { WorkKeepsIds(s.items, e.edit); }
    }
  }

  /** Ids stay unique in every history, so reorders and claims after it always find one row for an id. */
  lemma {:induction false} HistoryUnique(s: Inbox, events: seq<Event>)
    requires UniqueIds(s.items)
    ensures UniqueIds(History(s, events).items)
    decreases |events|
  {
    hide Next, UniqueIds;
    if events != [] {
      NextUnique(s, events[0]);
      HistoryUnique(Next(s, events[0]), events[1..]);
    }
  }

  /** After a successful reorder of an inbox with any history, and with only enqueues and claims since, the
      claims take the pending ids in exactly the given order, before any item enqueued later, whatever its
      urgency or priority. */
  lemma ManualOrderIsObeyed(revision: Option<nat>, before: seq<Event>, ids: seq<Id>, events: seq<Event>)
    requires Complete(History(Inbox([], revision, []), before).items, ids) && OnlyEnqueuesAndClaims(events)
    ensures var s := History(Inbox([], revision, []), before);
            var claims := Claims(Next(s, Plain(Reorder(ids))), events);
            claims <= PendingOf(s.items, ids) || PendingOf(s.items, ids) <= claims
  {
    var s := History(Inbox([], revision, []), before);
    HistoryUnique(Inbox([], revision, []), before);
    ReorderLines(s.items, ids);
    hide Complete, Lined, PendingOf, Claims, History;
    ClaimsFollowTheLine(Next(s, Plain(Reorder(ids))), PendingOf(s.items, ids), events);
  }

  // ---------------------------------------------------------------- the stored rows

  class Rows {
    var items: seq<Item>
    var revision: Option<nat>
    var receipts: seq<Receipt>

    ghost function View(): Inbox
      reads this
    {
      Inbox(items, revision, receipts)
    }

    constructor (revision: Option<nat>)
      ensures View() == Inbox([], revision, [])
    {
      items, receipts := [], [];
      this.revision := revision;
    }

    method TouchSessionInboxRevision()
      modifies this`revision
      ensures revision == Touched(old(revision))
    {
      if revision.None? {
        revision := Some(2);
      } else {
        revision := Some(revision.value + 1);
      }
    }

    method HighestPosition() returns (n: nat)
      ensures n + 1 == NextPosition(items)
    {
      n := 0;
      for i := 0 to |items|
        invariant n + 1 == NextPosition(items[..i])
      {
        assert items[..i + 1][..i] == items[..i];
        if items[i].status.Queued? && items[i].position > n { n := items[i].position; }
      }
      assert items[..|items|] == items;
    }

    /** A request that is already known is returned as it is, or refused if its content differs. */
    method EnqueueSessionInbox(id: Id, request: nat, content: string, urgency: nat, priority: int, now: int,
                               linked: bool)
      requires IndexOf(items, id) == |items|
      modifies this`items, this`revision
      ensures View() == Next(old(View()), Enqueue(id, request, content, urgency, priority, now, linked))
    {
      if exists i :: 0 <= i < |items| && items[i].request == request { return; }
      assert !RequestKnown(items, request);
      var highest := HighestPosition();
      items := items
        + [Item(id, request, content, Queued, Pending, highest + 1, false, urgency, priority, now, linked)];
      TouchSessionInboxRevision();
    }

    /** The row that the claim's ORDER BY and LIMIT 1 select. */
    method SelectFirst() returns (i: nat)
      ensures i == First(items)
    {
      i := 0;
      var n := 0;
      while n < |items|
        invariant n <= |items| && i == First(items[..n])
      {
        assert items[..n + 1][..n] == items[..n];
        if Claimable(items[n]) {
          if i == n || Before(items[n], items[i]) { i := n; }
        } else if i == n {
          i := n + 1;
        }
        n := n + 1;
      }
      assert items[..n] == items;
    }

    method ClaimNextSessionInbox(occupied: bool) returns (claimed: Option<Id>)
      modifies this`items, this`revision
      ensures View() == Next(old(View()), ClaimNext(occupied))
      ensures claimed.Some? <==>
                !occupied && exists k :: 0 <= k < |old(items)| && old(items)[k].status.Queued?
                                         && old(items)[k].decision.Pending?
      ensures claimed.Some? ==>
                exists i: nat :: && Heads(old(items), i) && claimed == Some(old(items)[i].id)
                                 && items == old(items)[i := old(items)[i].(status := Started, decision := Decided)]
      ensures claimed.None? ==> items == old(items)
    {
      FirstHeads(items);
      hide First, Heads;
      if occupied { return None; }
      var i := SelectFirst();
      if i == |items| { return None; }
      var item := items[i];
      items := items[i := item.(status := Started, decision := Decided)];
      TouchSessionInboxRevision();
      TouchSessionInboxRevision();
      claimed := Some(item.id);
    }

    /** One update per listed id, in the given order. */
    method AssignPositions(ids: seq<Id>)
      requires UniqueIds(items) && Complete(items, ids)
      modifies this`items
      ensures SameIdsAs(old(items), items)
      ensures forall k :: 0 <= k < |items| ==>
        items[k] == if old(items)[k].status.Queued?
          then old(items)[k].(position := PositionIn(ids, old(items)[k].id) + 1) else old(items)[k]
    {
      hide IndexOf, QueuedCount;
      ghost var was := items;
      CompleteNamesAll(was, ids);
      var n := 0;
      while n < |ids|
        invariant n <= |ids| && |items| == |was|
        invariant forall k :: 0 <= k < |items| ==>
          items[k] == if was[k].status.Queued? && was[k].id in ids[..n]
            then was[k].(position := PositionIn(ids, was[k].id) + 1) else was[k]
      {
        assert QueuedId(was, ids[n]);
        PositionOf(ids, n);
        var i := RowOf(ids[n]);
        IndexOfRow(was, items, ids[n], i);
        items := items[i := items[i].(position := n + 1)];
        assert ids[..n + 1] == ids[..n] + [ids[n]];
        n := n + 1;
      }
      assert ids[..n] == ids;
    }

    /** `manual_order=1` on every queued row. */
    method MarkManual()
      modifies this`items
      ensures |items| == |old(items)|
      ensures forall k :: 0 <= k < |items| ==> items[k] == if old(items)[k].status.Queued?
        then old(items)[k].(manual := true) else old(items)[k]
    {
      ghost var was := items;
      for k := 0 to |items|
        invariant |items| == |was|
        invariant forall j :: 0 <= j < k ==> items[j] == if was[j].status.Queued? then was[j].(manual := true)
          else was[j]
        invariant forall j :: k <= j < |items| ==> items[j] == was[j]
      {
        if items[k].status.Queued? { items := items[k := items[k].(manual := true)]; }
      }
    }

    method ReorderSessionInbox(ids: seq<Id>) returns (done: bool)
      requires UniqueIds(items)
      modifies this`items, this`revision
      ensures View() == Next(old(View()), Plain(Reorder(ids)))
      ensures done <==> Work(old(items), Reorder(ids)).Some?
      ensures done ==> Listing(items, ids)
    {
      hide IndexOf, Complete, PositionIn, Listing;
      if !Complete(items, ids) { return false; }
      ghost var was := items;
      ReorderListsAsGiven(was, ids, ids);
      AssignPositions(ids);
      MarkManual();
      assert items == Reordered(was, ids);
      TouchSessionInboxRevision();
      done := true;
    }

    /** The inbox edits other than a reorder: one or two row updates, then the revision. */
    method EditSessionInbox(edit: Edit) returns (done: bool)
      requires !edit.Reorder?
      modifies this`items, this`revision
      ensures View() == Next(old(View()), Plain(edit))
      ensures done <==> Work(old(items), edit).Some?
    {
      hide IndexOf;
      if edit.Merge? {
        if edit.source == edit.target { return false; }
        var i := RowOf(edit.source);
        var j := RowOf(edit.target);
        if i == |items| || j == |items| || !items[i].status.Queued? || !items[j].status.Queued? { return false; }
        if items[i].linked || items[j].linked { return false; }
        items := items[j := Merged(items[j], items[i])];
        items := items[i := items[i].(status := Deleted, decision := Decided)];
      } else {
        var i := RowOf(edit.id);
        if i == |items| || !items[i].status.Queued? || items[i].linked { return false; }
        match edit {
          case Rewrite(_, content) =>
            if content == "" { return false; }
            items := items[i := items[i].(content := content)];
          case Delete(_) => items := items[i := items[i].(status := Deleted, decision := Decided)];
          case Decide(_, defer) => items := items[i := items[i].(decision := if defer then Deferred else Pending)];
        }
      }
      TouchSessionInboxRevision();
      done := true;
    }

    /** Look the identity up, compare the revision, do the work, store the receipt. */
    method MutateSessionInboxProfile(identity: Identity, payload: nat, expected: nat, edit: Edit)
      returns (result: Result)
      requires UniqueIds(items)
      modifies this
      ensures (View(), result) == Mutate(old(View()), identity, payload, expected, edit)
    {
      hide Work, ReceiptOf, Listing;
      var k := ReceiptRow(identity);
      if k < |receipts| {
        var r := receipts[k];
        if r.payload != payload || r.expected != expected { return IdempotencyConflict; }
        return Succeeded(r.edited, r.resulting, true);
      }
      if revision.None? { return NotFound; }
      if revision.value != expected { return ConcurrencyConflict(revision.value); }
      var done;
      if edit.Reorder? {
        done := ReorderSessionInbox(edit.ids);
      } else {
        done := EditSessionInbox(edit);
      }
      if !done { return StateConflict; }
      var edited := SnapshotRows(EditedIds(edit));
      receipts := receipts + [Receipt(identity, payload, expected, edited, revision.value)];
      result := Succeeded(edited, revision.value, false);
    }

    method SnapshotRows(ids: seq<Id>) returns (rows: seq<Item>)
      ensures rows == Snapshots(items, ids)
    {
      rows := [];
      for n := 0 to |ids|
        invariant rows == Snapshots(items, ids[..n])
      {
        assert ids[..n + 1][..n] == ids[..n];
        var k := RowOf(ids[n]);
        if k < |items| { rows := rows + [items[k]]; }
      }
      assert ids[..|ids|] == ids;
    }

    method ReceiptRow(identity: Identity) returns (k: nat)
      ensures k == ReceiptOf(receipts, identity)
    {
      k := 0;
      while k < |receipts| && receipts[k].identity != identity
        invariant k <= |receipts| && forall j :: 0 <= j < k ==> receipts[j].identity != identity
      {
        k := k + 1;
      }
    }

    method RowOf(id: Id) returns (i: nat)
      ensures i == IndexOf(items, id)
    {
      i := 0;
      while i < |items| && items[i].id != id
        invariant i <= |items| && forall k :: 0 <= k < i ==> items[k].id != id
      {
        i := i + 1;
      }
    }
  }

  lemma IndexOfRow(was: seq<Item>, items: seq<Item>, id: Id, i: nat)
    requires SameIdsAs(was, items) && UniqueIds(was) && i == IndexOf(items, id) && QueuedId(was, id)
    ensures i < |was| && was[i].id == id && was[i].status.Queued?
    ensures forall k :: 0 <= k < |was| && was[k].id == id ==> k == i
  {
    hide IndexOf;
  }
}
