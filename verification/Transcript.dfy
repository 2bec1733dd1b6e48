/** The web console's transcript projection: merging a cursor delta into the
    transcript already shown, and grouping the result into reasoning-led stages. */
module Transcript {
  import opened Wrappers

  datatype MessageKind = User | Thinking | Assistant

  /** A transcript item. `body` stands for every field that neither the merge nor the grouping reads. */
  datatype Item =
    | Message(kind: MessageKind, sequence: int, index: Option<int>, body: nat)
    | Tool(toolCallId: nat, sequence: int, index: Option<int>, body: nat)

  /** The merge key. The two constructors never collide because a positional key starts with a number. */
  datatype Key = ToolKey(toolCallId: nat) | PositionKey(sequence: int, index: int, kind: MessageKind)

  function IndexOf(item: Item): int {
    if item.index.Some? then item.index.value else 0
  }

  function KeyOf(item: Item): Key {
    match item
    case Tool(id, _, _, _) => ToolKey(id)
    case Message(kind, sequence, _, _) => PositionKey(sequence, IndexOf(item), kind)
  }

  function Compare(left: Item, right: Item): int {
    if left.sequence != right.sequence then left.sequence - right.sequence else IndexOf(left) - IndexOf(right)
  }

  /** On the fields: `a` may stand before `b`. An absent index counts as 0. */
  predicate NotAfter(a: Item, b: Item) {
    || a.sequence < b.sequence
    || (a.sequence == b.sequence
        && (if a.index.Some? then a.index.value else 0) <= (if b.index.Some? then b.index.value else 0))
  }

  /** Ascending by sequence, and by index where sequences are equal. */
  ghost predicate Sorted(items: seq<Item>) {
    forall i, j :: 0 <= i < j < |items| ==> NotAfter(items[i], items[j])
  }

  /** The same sequence and the same index. */
  predicate Tied(a: Item, b: Item) {
    NotAfter(a, b) && NotAfter(b, a)
  }

  /** Two items are one to the merge if and only if they are results of the same tool call, or messages of the
      same kind in the same place. */
  lemma SameKeyExactlyWhen(a: Item, b: Item)
    ensures KeyOf(a) == KeyOf(b)
      <==> || (a.Tool? && b.Tool? && a.toolCallId == b.toolCallId)
           || (a.Message? && b.Message? && a.kind == b.kind && Tied(a, b))
  {
  }

  ghost function Keys(items: seq<Item>): set<Key> {
    set item | item in items :: KeyOf(item)
  }

  ghost predicate DistinctKeys(items: seq<Item>) {
    forall i, j :: 0 <= i < j < |items| ==> KeyOf(items[i]) != KeyOf(items[j])
  }

  // ---------------------------------------------------------------- specification

  /** The item that carries `key` in `items` with no later item carrying it. */
  ghost predicate IsLast(items: seq<Item>, key: Key, item: Item) {
    exists i :: 0 <= i < |items| && items[i] == item && KeyOf(item) == key
                && forall j :: i < j < |items| ==> KeyOf(items[j]) != key
  }

  /** What a merge must show: the last incoming item of a key, or else its last current item. */
  ghost predicate Shows(current: seq<Item>, incoming: seq<Item>, item: Item) {
    var key := KeyOf(item);
    IsLast(incoming, key, item) || (key !in Keys(incoming) && IsLast(current, key, item))
  }

  /** Setting a key of an insertion-ordered map: an existing key keeps its place. */
  function MapSet(entries: seq<Item>, item: Item): (r: seq<Item>) {
    if entries == [] then [item]
    else if KeyOf(entries[0]) == KeyOf(item) then [item] + entries[1..]
    else [entries[0]] + MapSet(entries[1..], item)
  }

  function Updates(incoming: seq<Item>): seq<Item> {
    if incoming == [] then [] else MapSet(Updates(incoming[..|incoming| - 1]), incoming[|incoming| - 1])
  }

  /** Current items that no update replaces, keeping the last one of each key. */
  ghost function Retained(current: seq<Item>, updated: set<Key>): seq<Item> {
    if current == [] then []
    else if KeyOf(current[0]) in updated + Keys(current[1..]) then Retained(current[1..], updated)
    else [current[0]] + Retained(current[1..], updated)
  }

  function InsertSorted(items: seq<Item>, item: Item): seq<Item> {
    if items == [] then [item]
    else if Compare(items[0], item) <= 0 then [items[0]] + InsertSorted(items[1..], item)
    else [item] + items
  }

  /** A stable sort: an item goes after every earlier item it ties with. */
  function StableSort(items: seq<Item>): seq<Item> {
    if items == [] then [] else InsertSorted(StableSort(items[..|items| - 1]), items[|items| - 1])
  }

  /** Two-way merge in which the left side wins ties. */
  function Interleave(left: seq<Item>, right: seq<Item>): seq<Item>
    decreases |left| + |right|
  {
    if left == [] then right
    else if right == [] then left
    else if Compare(left[0], right[0]) <= 0 then [left[0]] + Interleave(left[1..], right)
    else [right[0]] + Interleave(left, right[1..])
  }

  ghost function Merge(current: seq<Item>, incoming: seq<Item>): seq<Item> {
    Interleave(Retained(current, Keys(incoming)), StableSort(Updates(incoming)))
  }

  // ---------------------------------------------------------------- the loops

  /** `mergeTranscriptItems`: a map of the delta, a backward scan, a sort and a two-pointer merge. */
  method MergeTranscriptItems(current: seq<Item>, incoming: seq<Item>) returns (merged: seq<Item>)
    ensures merged == Merge(current, incoming)
  {
    var updates := CollectUpdates(incoming);
    UpdatesAreLast(incoming);
    var retained := CollectRetained(current, set item | item in updates :: KeyOf(item));
    merged := MergeSorted(retained, StableSort(updates));
  }

  method CollectUpdates(incoming: seq<Item>) returns (updates: seq<Item>)
    ensures updates == Updates(incoming)
  {
    updates := [];
    for i := 0 to |incoming|
      invariant updates == Updates(incoming[..i])
    {
      assert incoming[..i + 1][..i] == incoming[..i];
      updates := MapSet(updates, incoming[i]);
    }
    assert incoming[..|incoming|] == incoming;
  }

  method CollectRetained(current: seq<Item>, updated: set<Key>) returns (retained: seq<Item>)
    ensures retained == Retained(current, updated)
  {
    var seen: set<Key> := {};
    retained := [];
    var index := |current|;
    while index > 0
      invariant 0 <= index <= |current|
      invariant updated + seen == updated + Keys(current[index..])
      invariant retained == Retained(current[index..], updated)
    {
      index := index - 1;
      var item := current[index];
      ghost var rest := current[index + 1..];
      assert current[index..] == [item] + rest;
      KeysOfPrepend(item, rest);
      if KeyOf(item) !in updated && KeyOf(item) !in seen {
        seen := seen + {KeyOf(item)};
        retained := [item] + retained;
      }
    }
    assert current[0..] == current;
  }

  method MergeSorted(retained: seq<Item>, changed: seq<Item>) returns (merged: seq<Item>)
    ensures merged == Interleave(retained, changed)
  {
    merged := [];
    var left, right := 0, 0;
    while left < |retained| && right < |changed|
      invariant 0 <= left <= |retained| && 0 <= right <= |changed|
      invariant merged + Interleave(retained[left..], changed[right..]) == Interleave(retained, changed)
    {
      if Compare(retained[left], changed[right]) <= 0 {
        merged, left := merged + [retained[left]], left + 1;
      } else {
        merged, right := merged + [changed[right]], right + 1;
      }
    }
    merged := merged + retained[left..] + changed[right..];
  }

  lemma KeysOfPrepend(item: Item, rest: seq<Item>)
    ensures Keys([item] + rest) == {KeyOf(item)} + Keys(rest)
  {
    assert forall x :: x in [item] + rest <==> x == item || x in rest;
  }

  lemma SortedPrepend(item: Item, rest: seq<Item>)
    ensures Sorted([item] + rest) <==> Sorted(rest) && forall x :: x in rest ==> NotAfter(item, x)
  {
    var all := [item] + rest;
    assert forall i :: 0 <= i < |rest| ==> all[i + 1] == rest[i];
    if Sorted(all) {
      forall x | x in rest ensures NotAfter(item, x) {
        var i :| 0 <= i < |rest| && rest[i] == x;
        assert NotAfter(all[0], all[i + 1]);
      }
      forall i, j | 0 <= i < j < |rest| ensures NotAfter(rest[i], rest[j]) {
        assert NotAfter(all[i + 1], all[j + 1]);
      }
    }
  }

  lemma DistinctPrepend(item: Item, rest: seq<Item>)
    ensures DistinctKeys([item] + rest) <==> DistinctKeys(rest) && KeyOf(item) !in Keys(rest)
  {
    var all := [item] + rest;
    assert forall i :: 0 <= i < |rest| ==> all[i + 1] == rest[i];
    if DistinctKeys(all) {
      forall x | x in rest ensures KeyOf(x) != KeyOf(item) {
        var i :| 0 <= i < |rest| && rest[i] == x;
        assert KeyOf(all[0]) != KeyOf(all[i + 1]);
      }
      forall i, j | 0 <= i < j < |rest| ensures KeyOf(rest[i]) != KeyOf(rest[j]) {
        assert KeyOf(all[i + 1]) != KeyOf(all[j + 1]);
      }
    }
    if DistinctKeys(rest) && KeyOf(item) !in Keys(rest) {
      forall i, j | 0 <= i < j < |all| ensures KeyOf(all[i]) != KeyOf(all[j]) {
        assert all[j] == rest[j - 1] && KeyOf(rest[j - 1]) in Keys(rest);
        if i > 0 { assert all[i] == rest[i - 1]; }
      }
    }
  }

  // ---------------------------------------------------------------- what the merge promises

  lemma {:induction false} MapSetKeepsDistinct(entries: seq<Item>, item: Item)
    requires DistinctKeys(entries)
    ensures DistinctKeys(MapSet(entries, item))
    ensures forall x :: x in MapSet(entries, item) <==> x == item || (x in entries && KeyOf(x) != KeyOf(item))
  {
    if entries != [] {
      assert entries == [entries[0]] + entries[1..];
      if KeyOf(entries[0]) != KeyOf(item) {
        MapSetKeepsDistinct(entries[1..], item);
      }
    }
  }

  /** The update map holds exactly the last incoming item of each incoming key. */
  lemma {:induction false} UpdatesAreLast(incoming: seq<Item>)
    ensures DistinctKeys(Updates(incoming))
    ensures forall x :: x in Updates(incoming) <==> IsLast(incoming, KeyOf(x), x)
    ensures Keys(Updates(incoming)) == Keys(incoming)
  {
    if incoming != [] {
      var n := |incoming| - 1;
      var front, last := incoming[..n], incoming[n];
      UpdatesAreLast(front);
      MapSetKeepsDistinct(Updates(front), last);
      assert incoming == front + [last];
      forall x ensures x in Updates(incoming) <==> IsLast(incoming, KeyOf(x), x) {
        LastOfAppend(front, last, x);
      }
      KeysHaveLast(front);
      forall k ensures k in Keys(Updates(incoming)) <==> k in Keys(incoming) {
        if k in Keys(front) && k != KeyOf(last) {
          var x :| x in Updates(front) && KeyOf(x) == k;
          assert x in Updates(incoming);
        }
        if k == KeyOf(last) { assert last in Updates(incoming); }
      }
    }
  }

  lemma LastOfAppend(front: seq<Item>, last: Item, x: Item)
    ensures IsLast(front + [last], KeyOf(x), x)
       <==> x == last || (IsLast(front, KeyOf(x), x) && KeyOf(x) != KeyOf(last))
  {
    var all := front + [last];
    if x == last { assert all[|front|] == x; }
    if IsLast(front, KeyOf(x), x) && KeyOf(x) != KeyOf(last) {
      var i :| 0 <= i < |front| && front[i] == x && forall j :: i < j < |front| ==> KeyOf(front[j]) != KeyOf(x);
      assert all[i] == x;
    }
    if IsLast(all, KeyOf(x), x) && x != last {
      var i :| 0 <= i < |all| && all[i] == x && forall j :: i < j < |all| ==> KeyOf(all[j]) != KeyOf(x);
      assert KeyOf(all[|front|]) != KeyOf(x);
      assert forall j :: i < j < |front| ==> front[j] == all[j];
    }
  }

  /** Every key that occurs has a last occurrence. */
  lemma {:induction false} KeysHaveLast(items: seq<Item>)
    ensures forall k :: k in Keys(items) ==> exists x :: IsLast(items, k, x)
  {
    if items != [] {
      var n := |items| - 1;
      KeysHaveLast(items[..n]);
      assert items == items[..n] + [items[n]];
      forall k | k in Keys(items) ensures exists x :: IsLast(items, k, x) {
        if k == KeyOf(items[n]) {
          LastOfAppend(items[..n], items[n], items[n]);
        } else {
          assert k in Keys(items[..n]);
          var x :| IsLast(items[..n], k, x);
          LastOfAppend(items[..n], items[n], x);
        }
      }
    }
  }

  lemma {:induction false} RetainedAreLast(current: seq<Item>, updated: set<Key>)
    ensures DistinctKeys(Retained(current, updated))
    ensures forall x :: x in Retained(current, updated)
                   <==> KeyOf(x) !in updated && IsLast(current, KeyOf(x), x)
  {
    if current != [] {
      var head, tail := current[0], current[1..];
      RetainedAreLast(tail, updated);
      assert current == [head] + tail;
      forall x ensures x in Retained(current, updated)
                  <==> KeyOf(x) !in updated && IsLast(current, KeyOf(x), x)
      {
        LastOfPrepend(head, tail, x);
      }
    }
  }

  lemma LastInTail(head: Item, tail: seq<Item>, x: Item)
    requires IsLast(tail, KeyOf(x), x)
    ensures IsLast([head] + tail, KeyOf(x), x)
  {
    var i :| 0 <= i < |tail| && tail[i] == x && forall j :: i < j < |tail| ==> KeyOf(tail[j]) != KeyOf(x);
    assert ([head] + tail)[i + 1] == x;
  }

  lemma LastOfPrepend(head: Item, tail: seq<Item>, x: Item)
    ensures IsLast([head] + tail, KeyOf(x), x)
       <==> IsLast(tail, KeyOf(x), x) || (x == head && KeyOf(x) !in Keys(tail))
  {
    var all := [head] + tail;
    if IsLast(tail, KeyOf(x), x) { LastInTail(head, tail, x); }
    if x == head && KeyOf(x) !in Keys(tail) { assert all[0] == x; }
    if IsLast(all, KeyOf(x), x) {
      var i :| 0 <= i < |all| && all[i] == x && forall j :: i < j < |all| ==> KeyOf(all[j]) != KeyOf(x);
      assert forall j :: 0 <= j < |tail| ==> tail[j] == all[j + 1];
      if i > 0 { assert tail[i - 1] == x; }
    }
  }

  lemma {:induction false} InsertSortedIsSorted(items: seq<Item>, item: Item)
    requires Sorted(items)
    ensures Sorted(InsertSorted(items, item))
    ensures forall x :: x in InsertSorted(items, item) <==> x in items || x == item
  {
    if items != [] {
      assert items == [items[0]] + items[1..];
      SortedPrepend(items[0], items[1..]);
      if Compare(items[0], item) <= 0 {
        InsertSortedIsSorted(items[1..], item);
        SortedPrepend(items[0], InsertSorted(items[1..], item));
      } else {
        SortedPrepend(item, items);
      }
    }
  }

  lemma {:induction false} InsertSortedContents(items: seq<Item>, item: Item)
    ensures multiset(InsertSorted(items, item)) == multiset(items) + multiset{item}
  {
    if items != [] {
      assert items == [items[0]] + items[1..];
      InsertSortedContents(items[1..], item);
    }
  }

  lemma {:induction false} StableSortIsSorted(items: seq<Item>)
    ensures Sorted(StableSort(items)) && multiset(StableSort(items)) == multiset(items)
  {
    if items != [] {
      var n := |items| - 1;
      StableSortIsSorted(items[..n]);
      InsertSortedIsSorted(StableSort(items[..n]), items[n]);
      InsertSortedContents(StableSort(items[..n]), items[n]);
      assert items == items[..n] + [items[n]];
    }
  }

  lemma {:induction false} StableSortKeepsKeys(items: seq<Item>)
    requires DistinctKeys(items)
    ensures DistinctKeys(StableSort(items))
    ensures forall x :: x in StableSort(items) <==> x in items
    ensures Keys(StableSort(items)) == Keys(items)
  {
    if items != [] {
      var n := |items| - 1;
      StableSortKeepsKeys(items[..n]);
      assert items == items[..n] + [items[n]];
      assert KeyOf(items[n]) !in Keys(items[..n]);
      InsertSortedKeepsKeys(StableSort(items[..n]), items[n]);
    }
  }

  lemma {:induction false} InsertSortedKeepsKeys(items: seq<Item>, item: Item)
    requires DistinctKeys(items) && KeyOf(item) !in Keys(items)
    ensures DistinctKeys(InsertSorted(items, item))
    ensures forall x :: x in InsertSorted(items, item) <==> x in items || x == item
  {
    if items != [] {
      var head, tail := items[0], items[1..];
      assert items == [head] + tail;
      KeysOfPrepend(head, tail);
      DistinctPrepend(head, tail);
      if Compare(head, item) <= 0 {
        InsertSortedKeepsKeys(tail, item);
        DistinctPrepend(head, InsertSorted(tail, item));
      } else {
        DistinctPrepend(item, items);
      }
    }
  }

  /** The items that tie with `pivot`, in order. */
  function Ties(items: seq<Item>, pivot: Item): seq<Item> {
    if items == [] then []
    else if Tied(items[0], pivot) then [items[0]] + Ties(items[1..], pivot)
    else Ties(items[1..], pivot)
  }

  lemma {:induction false} TiesOfAppend(a: seq<Item>, b: seq<Item>, pivot: Item)
    ensures Ties(a + b, pivot) == Ties(a, pivot) + Ties(b, pivot)
  {
    if a == [] {
      assert a + b == b;
    } else {
      assert (a + b)[1..] == a[1..] + b;
      TiesOfAppend(a[1..], b, pivot);
    }
  }

  lemma {:induction false} NoTies(items: seq<Item>, pivot: Item)
    requires forall x :: x in items ==> !Tied(x, pivot)
    ensures Ties(items, pivot) == []
  {
    if items != [] { NoTies(items[1..], pivot); }
  }

  lemma {:induction false} InsertSortedIsStable(items: seq<Item>, item: Item, pivot: Item)
    requires Sorted(items)
    ensures Ties(InsertSorted(items, item), pivot) == Ties(items + [item], pivot)
  {
    TiesOfAppend(items, [item], pivot);
    if items != [] {
      if Compare(items[0], item) <= 0 {
        InsertSortedIsStable(items[1..], item, pivot);
        TiesOfAppend(items[1..], [item], pivot);
      } else if Tied(item, pivot) {
        forall x | x in items ensures !Tied(x, pivot) {
          var i :| 0 <= i < |items| && items[i] == x;
        }
        NoTies(items, pivot);
      }
    }
  }

  /** Array sort keeps the order of items with the same sequence and the same index. */
  lemma {:induction false} StableSortKeepsTies(items: seq<Item>, pivot: Item)
    ensures Ties(StableSort(items), pivot) == Ties(items, pivot)
  {
    if items != [] {
      var n := |items| - 1;
      StableSortIsSorted(items[..n]);
      StableSortKeepsTies(items[..n], pivot);
      InsertSortedIsStable(StableSort(items[..n]), items[n], pivot);
      TiesOfAppend(StableSort(items[..n]), [items[n]], pivot);
      TiesOfAppend(items[..n], [items[n]], pivot);
      assert items == items[..n] + [items[n]];
    }
  }

  lemma {:induction false} InterleaveContents(left: seq<Item>, right: seq<Item>)
    ensures forall x :: x in Interleave(left, right) <==> x in left || x in right
    decreases |left| + |right|
  {
    if left != [] && right != [] {
      if Compare(left[0], right[0]) <= 0 {
        InterleaveContents(left[1..], right);
        assert forall x :: x in left <==> x == left[0] || x in left[1..];
      } else {
        InterleaveContents(left, right[1..]);
        assert forall x :: x in right <==> x == right[0] || x in right[1..];
      }
    }
  }

  lemma {:induction false} InterleaveSorted(left: seq<Item>, right: seq<Item>)
    requires Sorted(left) && Sorted(right)
    ensures Sorted(Interleave(left, right))
    decreases |left| + |right|
  {
    if left != [] && right != [] {
      assert left == [left[0]] + left[1..] && right == [right[0]] + right[1..];
      SortedPrepend(left[0], left[1..]);
      SortedPrepend(right[0], right[1..]);
      if Compare(left[0], right[0]) <= 0 {
        InterleaveSorted(left[1..], right);
        InterleaveContents(left[1..], right);
        SortedPrepend(left[0], Interleave(left[1..], right));
      } else {
        InterleaveSorted(left, right[1..]);
        InterleaveContents(left, right[1..]);
        SortedPrepend(right[0], Interleave(left, right[1..]));
      }
    }
  }

  lemma {:induction false} RetainedIsSorted(current: seq<Item>, updated: set<Key>)
    requires Sorted(current)
    ensures Sorted(Retained(current, updated))
    ensures forall x :: x in Retained(current, updated) ==> x in current
  {
    if current != [] {
      var head, tail := current[0], current[1..];
      assert current == [head] + tail;
      SortedPrepend(head, tail);
      RetainedIsSorted(tail, updated);
      SortedPrepend(head, Retained(tail, updated));
    }
  }

  /** Two sequences with disjoint keys, each distinct, interleave to a sequence with distinct keys. */
  lemma {:induction false} InterleaveDistinct(left: seq<Item>, right: seq<Item>)
    requires DistinctKeys(left) && DistinctKeys(right) && Keys(left) !! Keys(right)
    ensures DistinctKeys(Interleave(left, right))
    ensures Keys(Interleave(left, right)) == Keys(left) + Keys(right)
    decreases |left| + |right|
  {
    if left != [] && right != [] {
      assert left == [left[0]] + left[1..] && right == [right[0]] + right[1..];
      KeysOfPrepend(left[0], left[1..]);
      KeysOfPrepend(right[0], right[1..]);
      DistinctPrepend(left[0], left[1..]);
      DistinctPrepend(right[0], right[1..]);
      if Compare(left[0], right[0]) <= 0 {
        InterleaveDistinct(left[1..], right);
        DistinctPrepend(left[0], Interleave(left[1..], right));
        KeysOfPrepend(left[0], Interleave(left[1..], right));
      } else {
        InterleaveDistinct(left, right[1..]);
        DistinctPrepend(right[0], Interleave(left, right[1..]));
        KeysOfPrepend(right[0], Interleave(left, right[1..]));
      }
    }
  }

  /** One item per key: the last incoming one, else the last current one, and nothing else. */
  lemma MergeShowsEachKeyOnce(current: seq<Item>, incoming: seq<Item>)
    ensures DistinctKeys(Merge(current, incoming))
    ensures forall x :: x in Merge(current, incoming) <==> Shows(current, incoming, x)
    ensures Keys(Merge(current, incoming)) == Keys(current) + Keys(incoming)
  {
    var updated := Keys(incoming);
    var left, right := Retained(current, updated), StableSort(Updates(incoming));
    RetainedAreLast(current, updated);
    UpdatesAreLast(incoming);
    StableSortKeepsKeys(Updates(incoming));
    InterleaveDistinct(left, right);
    InterleaveContents(left, right);
    forall x ensures x in Merge(current, incoming) <==> Shows(current, incoming, x) {
      if IsLast(incoming, KeyOf(x), x) { assert KeyOf(x) in Keys(incoming); }
    }
    KeysHaveLast(current);
    forall k | k in Keys(current) && k !in updated ensures k in Keys(left) {
      var x :| IsLast(current, k, x);
      assert x in left;
    }
  }

  /** A transcript that ascends by sequence, and by index where sequences are equal, still does after a merge. */
  lemma MergeStaysSorted(current: seq<Item>, incoming: seq<Item>)
    requires Sorted(current)
    ensures Sorted(Merge(current, incoming))
  {
    RetainedIsSorted(current, Keys(incoming));
    StableSortIsSorted(Updates(incoming));
    InterleaveSorted(Retained(current, Keys(incoming)), StableSort(Updates(incoming)));
  }

  lemma {:induction false} InterleaveTies(left: seq<Item>, right: seq<Item>, pivot: Item)
    requires Sorted(left) && Sorted(right)
    ensures Ties(Interleave(left, right), pivot) == Ties(left, pivot) + Ties(right, pivot)
    decreases |left| + |right|
  {
    if left != [] && right != [] {
      if Compare(left[0], right[0]) <= 0 {
        InterleaveTies(left[1..], right, pivot);
      } else {
        InterleaveTies(left, right[1..], pivot);
        if Tied(right[0], pivot) {
          forall x | x in left ensures !Tied(x, pivot) {
            var i :| 0 <= i < |left| && left[i] == x;
          }
          NoTies(left, pivot);
        }
      }
    }
  }

  /** Among items in one place the merge shows those it retained first, then the delta's, each in their
      own order. */
  lemma MergeKeepsTies(current: seq<Item>, incoming: seq<Item>, pivot: Item)
    requires Sorted(current)
    ensures Ties(Merge(current, incoming), pivot)
         == Ties(Retained(current, Keys(incoming)), pivot) + Ties(Updates(incoming), pivot)
  {
    RetainedIsSorted(current, Keys(incoming));
    StableSortIsSorted(Updates(incoming));
    StableSortKeepsTies(Updates(incoming), pivot);
    InterleaveTies(Retained(current, Keys(incoming)), StableSort(Updates(incoming)), pivot);
  }

  /** Two places of `current`, in order, that hold these items. */
  ghost predicate InOrder(current: seq<Item>, x: Item, y: Item) {
    exists a, b :: 0 <= a < b < |current| && current[a] == x && current[b] == y
  }

  /** Retained items stand in the order of the transcript they were retained from. */
  lemma {:induction false} RetainedInOrder(current: seq<Item>, updated: set<Key>, i: nat, j: nat)
    requires i < j < |Retained(current, updated)|
    ensures InOrder(current, Retained(current, updated)[i], Retained(current, updated)[j])
  {
    var head, tail, r := current[0], current[1..], Retained(current, updated);
    assert current == [head] + tail;
    assert r in {Retained(tail, updated), [head] + Retained(tail, updated)};
    hide Keys, Retained, InOrder;
    if r == Retained(tail, updated) {
      RetainedInOrder(tail, updated, i, j);
      ShiftedOrder(head, tail, r[i], r[j]);
    } else if i > 0 {
      RetainedInOrder(tail, updated, i - 1, j - 1);
      ShiftedOrder(head, tail, r[i], r[j]);
    } else {
      RetainedWithin(tail, updated, j - 1);
      HeadFirst(head, tail, r[j]);
    }
  }

  lemma {:induction false} RetainedWithin(current: seq<Item>, updated: set<Key>, i: nat)
    requires i < |Retained(current, updated)|
    ensures Retained(current, updated)[i] in current
  {
    if KeyOf(current[0]) in updated + Keys(current[1..]) {
      RetainedWithin(current[1..], updated, i);
    } else if i > 0 {
      RetainedWithin(current[1..], updated, i - 1);
    }
  }

  lemma HeadFirst(head: Item, tail: seq<Item>, x: Item)
    requires x in tail
    ensures InOrder([head] + tail, head, x)
  {
    var b :| 0 <= b < |tail| && tail[b] == x;
    assert ([head] + tail)[0] == head && ([head] + tail)[b + 1] == x;
  }

  lemma ShiftedOrder(head: Item, tail: seq<Item>, x: Item, y: Item)
    requires InOrder(tail, x, y)
    ensures InOrder([head] + tail, x, y)
  {
    var a, b :| 0 <= a < b < |tail| && tail[a] == x && tail[b] == y;
    assert ([head] + tail)[a + 1] == x && ([head] + tail)[b + 1] == y;
  }

  /** Filtering the updated keys out of an interleaving gives back its left side. */
  lemma {:induction false} RetainedOfInterleave(left: seq<Item>, right: seq<Item>, updated: set<Key>)
    requires DistinctKeys(left) && DistinctKeys(right) && Keys(left) !! updated && Keys(right) <= updated
    ensures Retained(Interleave(left, right), updated) == left
    decreases |left| + |right|
  {
    if left == [] {
      RetainedNothing(right, updated);
    } else {
      assert left == [left[0]] + left[1..];
      KeysOfPrepend(left[0], left[1..]);
      DistinctPrepend(left[0], left[1..]);
      if right == [] || Compare(left[0], right[0]) <= 0 {
        RetainedOfInterleave(left[1..], right, updated);
        InterleaveDistinct(left[1..], right);
        assert Interleave(left, right) == [left[0]] + Interleave(left[1..], right);
      } else {
        assert right == [right[0]] + right[1..];
        KeysOfPrepend(right[0], right[1..]);
        DistinctPrepend(right[0], right[1..]);
        RetainedOfInterleave(left, right[1..], updated);
      }
    }
  }

  lemma {:induction false} RetainedNothing(items: seq<Item>, updated: set<Key>)
    requires Keys(items) <= updated
    ensures Retained(items, updated) == []
  {
    if items != [] {
      assert KeyOf(items[0]) in Keys(items) && Keys(items[1..]) <= Keys(items);
      RetainedNothing(items[1..], updated);
    }
  }

  /** Merging the same delta again changes nothing, whether or not the transcript was sorted. */
  lemma MergeIsIdempotent(current: seq<Item>, incoming: seq<Item>)
    ensures Merge(Merge(current, incoming), incoming) == Merge(current, incoming)
  {
    var updated := Keys(incoming);
    var left, right := Retained(current, updated), StableSort(Updates(incoming));
    RetainedAreLast(current, updated);
    UpdatesAreLast(incoming);
    StableSortKeepsKeys(Updates(incoming));
    RetainedOfInterleave(left, right, updated);
  }

  // ---------------------------------------------------------------- grouping

  /** `executionItemKey`: a tool item has no message kind. */
  function ExecutionKey(item: Item): (int, int, Option<MessageKind>) {
    (item.sequence, IndexOf(item), if item.Message? then Some(item.kind) else None)
  }

  /** Stages have one key if and only if their first items have the same place and kind. */
  lemma SameStageKeyExactlyWhen(a: Item, b: Item)
    ensures ExecutionKey(a) == ExecutionKey(b)
       <==> Tied(a, b) && (a.Tool? <==> b.Tool?) && (a.Message? && b.Message? ==> a.kind == b.kind)
  {
  }

  predicate IsUser(item: Item) { item.Message? && item.kind == User }
  predicate IsThinking(item: Item) { item.Message? && item.kind == Thinking }
  predicate IsOutput(item: Item) { item.Message? && item.kind == Assistant }

  function NonUser(items: seq<Item>): seq<Item> {
    if items == [] then []
    else NonUser(items[..|items| - 1]) + (if IsUser(items[|items| - 1]) then [] else [items[|items| - 1]])
  }

  /** A stage, keyed by its first item: optional reasoning, then tools, then an optional answer. */
  datatype Stage = Stage(key: (int, int, Option<MessageKind>), reasoning: Option<Item>, tools: seq<Item>,
                         output: Option<Item>)

  function FlattenStage(g: Stage): seq<Item> {
    (if g.reasoning.Some? then [g.reasoning.value] else [])
    + g.tools
    + (if g.output.Some? then [g.output.value] else [])
  }

  function Flatten(groups: seq<Stage>): seq<Item> {
    if groups == [] then [] else Flatten(groups[..|groups| - 1]) + FlattenStage(groups[|groups| - 1])
  }

  ghost predicate WellFormed(g: Stage) {
    && FlattenStage(g) != [] && g.key == ExecutionKey(FlattenStage(g)[0])
    && (g.reasoning.Some? ==> IsThinking(g.reasoning.value))
    && (forall t :: t in g.tools ==> t.Tool?)
    && (g.output.Some? ==> IsOutput(g.output.value))
  }

  /** A stage ends only where it must: after an answer, or where new reasoning starts. */
  ghost predicate StageBoundary(before: Stage, after: Stage) {
    before.output.Some? || after.reasoning.Some?
  }

  /** What holds of the stages built so far; the last one is still open unless it has an answer. */
  ghost predicate Stages(groups: seq<Stage>) {
    && (forall i :: 0 <= i < |groups| ==> WellFormed(groups[i]))
    && (forall i :: 0 < i < |groups| ==> StageBoundary(groups[i - 1], groups[i]))
  }

  predicate Open(groups: seq<Stage>) { groups != [] && groups[|groups| - 1].output.None? }

  /** One turn of the grouping loop. */
  method PlaceItem(groups: seq<Stage>, item: Item) returns (placed: seq<Stage>)
    requires Stages(groups) && !IsUser(item)
    ensures Stages(placed) && Flatten(placed) == Flatten(groups) + [item]
  {
    var n := |groups|;
    if IsThinking(item) {
      var stage := Stage(ExecutionKey(item), Some(item), [], None);
      placed := groups + [stage];
      StartStage(groups, stage, item);
    } else if !Open(groups) {
      var stage := if item.Tool? then Stage(ExecutionKey(item), None, [item], None)
                   else Stage(ExecutionKey(item), None, [], Some(item));
      placed := groups + [stage];
      StartStage(groups, stage, item);
    } else {
      var g := groups[n - 1];
      var stage := if item.Tool? then g.(tools := g.tools + [item]) else g.(output := Some(item));
      placed := groups[..n - 1] + [stage];
      ExtendStage(g, stage, item);
      ExtendLast(groups, stage, item);
    }
  }

  lemma {:induction false} StartStage(groups: seq<Stage>, stage: Stage, item: Item)
    requires Stages(groups) && WellFormed(stage) && FlattenStage(stage) == [item]
    requires groups == [] || StageBoundary(groups[|groups| - 1], stage)
    ensures Stages(groups + [stage]) && Flatten(groups + [stage]) == Flatten(groups) + [item]
  {
    assert (groups + [stage])[..|groups|] == groups;
  }

  lemma ExtendStage(g: Stage, stage: Stage, item: Item)
    requires WellFormed(g) && g.output.None? && !IsUser(item) && !IsThinking(item)
    requires stage == if item.Tool? then g.(tools := g.tools + [item]) else g.(output := Some(item))
    ensures WellFormed(stage) && FlattenStage(stage) == FlattenStage(g) + [item]
  {
    assert FlattenStage(stage) == FlattenStage(g) + [item];
    assert FlattenStage(stage)[0] == FlattenStage(g)[0];
  }

  lemma {:induction false} ExtendLast(groups: seq<Stage>, stage: Stage, item: Item)
    requires groups != [] && Stages(groups) && WellFormed(stage)
    requires var g := groups[|groups| - 1];
             stage.reasoning == g.reasoning && FlattenStage(stage) == FlattenStage(g) + [item]
    ensures Stages(groups[..|groups| - 1] + [stage])
    ensures Flatten(groups[..|groups| - 1] + [stage]) == Flatten(groups) + [item]
  {
    var front := groups[..|groups| - 1];
    assert (front + [stage])[..|front|] == front;
  }

  /** `groupExecutionItems`: flattening the stages gives back the non-user items in order, and no
      stage is split without cause. */
  method GroupExecutionItems(items: seq<Item>) returns (groups: seq<Stage>)
    ensures Flatten(groups) == NonUser(items)
    ensures Stages(groups)
  {
    groups := [];
    for i := 0 to |items|
      invariant Flatten(groups) == NonUser(items[..i])
      invariant Stages(groups)
    {
      assert items[..i + 1][..i] == items[..i];
      if !IsUser(items[i]) {
        groups := PlaceItem(groups, items[i]);
      }
    }
    assert items[..|items|] == items;
  }
}
