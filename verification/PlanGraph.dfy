/** Plan items, their dependency graph, and the depth-first cycle check that guards every upsert. */
module PlanGraph {
  import opened Wrappers

  /** Item keys in their sort order. */
  type Key = nat
  type Graph = map<Key, seq<Key>>

  const MAX_DEPENDENCIES: nat := 50

  datatype ItemStatus = Pending | InProgress | Done | ItemBlocked

  /** Criterion-aware metadata; only items that carry it take part in the dependency graph. */
  datatype Metadata = Metadata(
    objectiveIds: seq<nat>, criterionIds: seq<nat>, dependencies: seq<Key>, evidenceRefs: seq<nat>,
    createdAttempt: nat, updatedAttempt: nat, replanReason: string)

  datatype PlanItem = PlanItem(
    key: Key, title: string, status: ItemStatus, required: bool, position: int, metadata: Option<Metadata>)

  type Plan = map<Key, PlanItem>

  // ---------------------------------------------------------------- the graph

  function Dependencies(plan: Plan): Graph {
    map key | key in plan && plan[key].metadata.Some? :: plan[key].metadata.value.dependencies
  }

  ghost predicate IsPath(g: Graph, p: seq<Key>) {
    && p != []
    && (forall i :: 0 <= i < |p| ==> p[i] in g)
    && (forall i :: 0 <= i < |p| - 1 ==> p[i + 1] in g[p[i]])
  }

  ghost predicate IsCycle(g: Graph, p: seq<Key>) {
    IsPath(g, p) && |p| >= 2 && p[0] == p[|p| - 1]
  }

  ghost predicate OnCycle(g: Graph, key: Key) {
    exists p :: IsCycle(g, p) && p[0] == key
  }

  ghost predicate HasCycle(g: Graph) {
    exists p :: IsCycle(g, p)
  }

  // ---------------------------------------------------------------- depth-first search

  /** Search state: `finished` lists the visited keys in the order in which they were left. */
  class CycleFinder {
    const g: Graph
    var visited: set<Key>
    var active: map<Key, nat>
    var stack: seq<Key>
    var cyclic: set<Key>
    ghost var finished: seq<Key>

    constructor (g: Graph)
      ensures this.g == g && Valid() && stack == [] && cyclic == {} && visited == {}
    {
      this.g := g;
      visited, active, stack, cyclic, finished := {}, map[], [], {}, [];
    }

    ghost predicate Valid()
      reads this
    {
      Searching(g, visited, active, stack, cyclic, finished)
    }

    /** `visit`: a key already on the stack closes a cycle; otherwise its dependencies come first. */
    method Visit(key: Key)
      requires Valid() && key in g && (stack != [] ==> key in g[stack[|stack| - 1]])
      modifies this
      ensures Valid() && stack == old(stack) && active == old(active)
      ensures old(visited) <= visited && old(cyclic) <= cyclic
      ensures cyclic == {} ==> key in visited
      decreases g.Keys - visited - active.Keys, 1
    {
      if key in active {
        CloseCycle(g, stack, active[key]);
        assert stack[active[key]..][0] == key;
        cyclic := cyclic + set member | member in stack[active[key]..];
        assert key in cyclic;
      } else if key !in visited {
        Enter(key);
      }
    }

    /** The part of `visit` that follows the dependencies of a key seen for the first time. */
    method Enter(key: Key)
      requires Valid() && key in g && (stack != [] ==> key in g[stack[|stack| - 1]])
      requires key !in active && key !in visited
      modifies this
      ensures Valid() && stack == old(stack) && active == old(active)
      ensures old(visited) <= visited && old(cyclic) <= cyclic && key in visited
      decreases g.Keys - visited - active.Keys, 0
    {
      hide Searching, Indexes;
      ghost var below, path := active, stack;
      Push(g, visited, active, stack, cyclic, finished, key);
      active := active[key := |stack|];
      stack := stack + [key];
      var i := 0;
      while i < |g[key]|
        invariant 0 <= i <= |g[key]|
        invariant Valid() && stack == path + [key] && active == below[key := |path|]
        invariant old(visited) <= visited && old(cyclic) <= cyclic
        invariant cyclic == {} ==> forall j :: 0 <= j < i && g[key][j] in g ==> g[key][j] in visited
      {
        if g[key][i] in g {
          assert key in old(g.Keys - visited - active.Keys) && key !in g.Keys - visited - active.Keys;
          Visit(g[key][i]);
        }
        i := i + 1;
      }
      Pop(g, visited, below, path, cyclic, finished, key);
      stack := stack[..|stack| - 1];
      active := active - {key};
      assert stack == path && active == below;
      visited := visited + {key};
      finished := finished + [key];
    }
  }

  /** The invariant of the search, over the values of the search state. */
  ghost predicate Searching(g: Graph, visited: set<Key>, active: map<Key, nat>, stack: seq<Key>,
                            cyclic: set<Key>, finished: seq<Key>)
  {
    && (stack != [] ==> IsPath(g, stack))
    && Indexes(active, stack, visited)
    && Leaves(g, visited, finished)
    && (forall k :: k in cyclic ==> OnCycle(g, k))
    && (cyclic == {} ==> Ranked(g, finished))
  }

  /** `active` maps each key of the stack to its position; no key of the stack was left yet. */
  ghost predicate Indexes(active: map<Key, nat>, stack: seq<Key>, visited: set<Key>) {
    && (forall i :: 0 <= i < |stack| ==> stack[i] in active && active[stack[i]] == i && stack[i] !in visited)
    && (forall k :: k in active ==> active[k] < |stack| && stack[active[k]] == k)
  }

  lemma Push(g: Graph, visited: set<Key>, active: map<Key, nat>, stack: seq<Key>, cyclic: set<Key>,
             finished: seq<Key>, key: Key)
    requires Searching(g, visited, active, stack, cyclic, finished)
    requires key in g && key !in active && key !in visited && (stack != [] ==> key in g[stack[|stack| - 1]])
    ensures Searching(g, visited, active[key := |stack|], stack + [key], cyclic, finished)
  {
  }

  lemma Pop(g: Graph, visited: set<Key>, active: map<Key, nat>, stack: seq<Key>, cyclic: set<Key>,
            finished: seq<Key>, key: Key)
    requires Searching(g, visited, active[key := |stack|], stack + [key], cyclic, finished)
    requires key !in active && key in g
    requires cyclic == {} ==> forall j :: 0 <= j < |g[key]| && g[key][j] in g ==> g[key][j] in visited
    ensures active[key := |stack|] - {key} == active
    ensures (stack + [key])[..|stack|] == stack
    ensures Searching(g, visited + {key}, active, stack, cyclic, finished + [key])
  {
    var more := stack + [key];
    assert IsPath(g, more) && more[|stack|] == key;
    assert key !in visited;
    LeaveKey(g, visited, finished, key);
    forall i | 0 <= i < |stack|
      ensures stack[i] in active && active[stack[i]] == i && stack[i] !in visited + {key} && stack[i] in g
    {
      assert more[i] == stack[i];
    }
    forall i | 0 <= i < |stack| - 1 ensures stack[i + 1] in g[stack[i]] {
      assert more[i + 1] in g[more[i]];
    }
    forall k | k in active ensures active[k] < |stack| && stack[active[k]] == k {
      assert active[key := |stack|][k] == active[k];
      assert more[active[k]] == k;
    }
  }

  /** `finished` enumerates the visited keys without repetition. */
  ghost predicate Leaves(g: Graph, visited: set<Key>, finished: seq<Key>) {
    && visited <= g.Keys
    && (forall k :: k in visited <==> k in finished)
    && (forall i, j :: 0 <= i < j < |finished| ==> finished[i] != finished[j])
  }

  /** Every dependency of a finished key was finished before it. */
  ghost predicate Ranked(g: Graph, finished: seq<Key>) {
    forall j :: 0 <= j < |finished| && finished[j] in g ==>
      forall d :: d in g[finished[j]] && d in g ==> d in finished[..j]
  }

  lemma CloseCycle(g: Graph, stack: seq<Key>, at: nat)
    requires IsPath(g, stack) && at < |stack| && stack[at] in g[stack[|stack| - 1]]
    ensures forall k :: k in stack[at..] ==> OnCycle(g, k)
  {
    forall j | at <= j < |stack| ensures OnCycle(g, stack[j]) {
      assert IsCycle(g, stack[j..] + stack[at..j + 1]);
    }
  }

  lemma LeaveKey(g: Graph, visited: set<Key>, finished: seq<Key>, key: Key)
    requires Leaves(g, visited, finished) && key in g && key !in visited
    ensures Leaves(g, visited + {key}, finished + [key])
    ensures Ranked(g, finished) && (forall d :: d in g[key] && d in g ==> d in visited) ==> Ranked(g, finished + [key])
  {
    var more := finished + [key];
    if Ranked(g, finished) && forall d :: d in g[key] && d in g ==> d in visited {
      forall j, d | 0 <= j < |more| && more[j] in g && d in g[more[j]] && d in g ensures d in more[..j] {
        if j < |finished| {
          assert more[..j] == finished[..j] && more[j] == finished[j];
        } else {
          assert more[..j] == finished;
        }
      }
    }
  }

  /** Along a path, finishing positions fall by at least one per edge. */
  lemma {:induction false} PathFalls(g: Graph, finished: seq<Key>, p: seq<Key>, j: nat) returns (i: int)
    requires Ranked(g, finished) && IsPath(g, p) && j < |finished| && finished[j] == p[0]
    ensures 0 <= i <= j - (|p| - 1) && finished[i] == p[|p| - 1]
    decreases |p|
  {
    if |p| == 1 {
      i := j;
    } else {
      var d := p[1];
      assert d in g[finished[j]] && d in g;
      var k :| 0 <= k < j && finished[k] == d;
      assert IsPath(g, p[1..]);
      i := PathFalls(g, finished, p[1..], k);
    }
  }

  lemma RankedIsAcyclic(g: Graph, visited: set<Key>, finished: seq<Key>)
    requires Leaves(g, visited, finished) && Ranked(g, finished) && g.Keys <= visited
    ensures !HasCycle(g)
  {
    forall p | IsCycle(g, p) ensures false {
      assert p[0] in finished;
      var j :| 0 <= j < |finished| && finished[j] == p[0];
      var i := PathFalls(g, finished, p, j);
    }
  }

  predicate StrictlyAscending(keys: seq<Key>) {
    forall i, j :: 0 <= i < j < |keys| ==> keys[i] < keys[j]
  }

  method SortKeys(keys: set<Key>) returns (sorted: seq<Key>)
    ensures StrictlyAscending(sorted) && (forall k :: k in sorted <==> k in keys) && |sorted| == |keys|
  {
    sorted := [];
    var rest := keys;
    while rest != {}
      invariant rest <= keys && StrictlyAscending(sorted) && |sorted| + |rest| == |keys|
      invariant forall k :: k in sorted <==> k in keys - rest
      decreases rest
    {
      var key :| key in rest;
      rest := rest - {key};
      var i := 0;
      while i < |sorted| && sorted[i] < key
        invariant 0 <= i <= |sorted| && forall j :: 0 <= j < i ==> sorted[j] < key
      {
        i := i + 1;
      }
      assert forall k :: k in sorted <==> k in sorted[..i] || k in sorted[i..];
      sorted := sorted[..i] + [key] + sorted[i..];
    }
  }

  /** `cyclicPlanItemKeys`: non-empty exactly when the dependency graph has a cycle, and every key
      it names lies on one. */
  method CyclicPlanItemKeys(plan: Plan) returns (keys: seq<Key>)
    ensures keys != [] <==> HasCycle(Dependencies(plan))
    ensures forall k :: k in keys ==> OnCycle(Dependencies(plan), k)
    ensures StrictlyAscending(keys)
  {
    var finder := new CycleFinder(Dependencies(plan));
    var rest := finder.g.Keys;
    while rest != {}
      invariant finder.Valid() && finder.stack == [] && rest <= finder.g.Keys
      invariant finder.cyclic == {} ==> finder.g.Keys - rest <= finder.visited
      decreases rest
    {
      var key :| key in rest;
      finder.Visit(key);
      rest := rest - {key};
    }
    keys := SortKeys(finder.cyclic);
    if finder.cyclic == {} {
      RankedIsAcyclic(finder.g, finder.visited, finder.finished);
    } else {
      var k :| k in finder.cyclic;
      assert k in keys;
      ghost var p :| IsCycle(finder.g, p) && p[0] == k;
    }
  }

  // ---------------------------------------------------------------- upserts

  datatype Refusal =
    TooManyDependencies | RepeatedDependency | DependsOnItself | UnknownReference | NoReplanReason | Cyclic

  datatype UpsertResult = Stored | Refused(why: Refusal)

  /** What a caller supplies. `known` says whether every objective and criterion it names exists in the
      run's contract and every text field is well formed. */
  datatype Draft = Draft(
    key: Key, title: string, status: ItemStatus, required: bool, position: int, criterionAware: bool,
    objectiveIds: seq<nat>, criterionIds: seq<nat>, dependencies: seq<Key>, evidenceRefs: seq<nat>,
    replanReason: string, known: bool)

  predicate Distinct(keys: seq<Key>) {
    forall i, j :: 0 <= i < j < |keys| ==> keys[i] != keys[j]
  }

  /** The checks of `normalizePlanMetadata`, in order. */
  function Objection(plan: Plan, d: Draft): Option<Refusal> {
    if !d.criterionAware then None
    else if |d.dependencies| > MAX_DEPENDENCIES then Some(TooManyDependencies)
    else if !Distinct(d.dependencies) then Some(RepeatedDependency)
    else if d.key in d.dependencies then Some(DependsOnItself)
    else if !d.known then Some(UnknownReference)
    else if Rescoped(plan, d) && d.replanReason == "" then Some(NoReplanReason)
    else None
  }

  /** Title, objectives, criteria or dependencies of a criterion-aware item change. */
  predicate Rescoped(plan: Plan, d: Draft) {
    d.key in plan && plan[d.key].metadata.Some? &&
    var before := plan[d.key].metadata.value;
    (plan[d.key].title, before.objectiveIds, before.criterionIds, before.dependencies)
    != (d.title, d.objectiveIds, d.criterionIds, d.dependencies)
  }

  function Normalized(plan: Plan, d: Draft, attempt: nat): PlanItem {
    var created := if d.key in plan && plan[d.key].metadata.Some? then plan[d.key].metadata.value.createdAttempt
      else attempt;
    PlanItem(d.key, d.title, d.status, d.required, d.position,
             if d.criterionAware
             then Some(Metadata(d.objectiveIds, d.criterionIds, d.dependencies, d.evidenceRefs, created, attempt,
                                d.replanReason))
             else None)
  }

  // ---------------------------------------------------------------- when one item closes a cycle

  /** A path of stored dependencies from one of `dependencies` to `key`, which it meets only at its end. */
  ghost predicate LeadsTo(g: Graph, p: seq<Key>, dependencies: seq<Key>, key: Key) {
    && p != [] && p[0] in dependencies && p[|p| - 1] == key && key !in p[..|p| - 1]
    && forall i :: 0 <= i < |p| - 1 ==> p[i] in g && p[i + 1] in g[p[i]]
  }

  ghost predicate LeadsBack(g: Graph, dependencies: seq<Key>, key: Key) {
    exists p :: LeadsTo(g, p, dependencies, key)
  }

  /** A cycle read from another of its keys on. */
  lemma Rotated(g: Graph, p: seq<Key>, a: nat)
    requires IsCycle(g, p) && a < |p|
    ensures var q := p[a..] + p[1..a + 1]; IsCycle(g, q) && q[0] == p[a]
  {
    var q, n := p[a..] + p[1..a + 1], |p| - a;
    assert forall i :: 0 <= i < |q| ==> q[i] == if i < n then p[a + i] else p[i - n + 1];
    forall i | 0 <= i < |q| - 1 ensures q[i + 1] in g[q[i]] {
      if i < n - 1 {
        assert p[a + i + 1] in g[p[a + i]];
      } else {
        assert p[i - n + 1 + 1] in g[p[i - n + 1]];
      }
    }
  }

  lemma CycleLeadsBack(g: Graph, dependencies: seq<Key>, key: Key, p: seq<Key>)
    requires IsCycle(g[key := dependencies], p) && p[0] == key
    ensures LeadsBack(g, dependencies, key)
  {
    var j := 1;
    while p[j] != key
      invariant 1 <= j < |p| && forall i :: 1 <= i < j ==> p[i] != key
      decreases |p| - j
    {
      j := j + 1;
    }
    var back := p[1..j + 1];
    forall i | 0 <= i < |back| - 1 ensures back[i] in g && back[i + 1] in g[back[i]] {
      assert back[i] == p[i + 1] && p[i + 1 + 1] in g[key := dependencies][p[i + 1]];
    }
    assert p[0 + 1] in g[key := dependencies][p[0]];
    assert LeadsTo(g, back, dependencies, key);
  }

  lemma BackIsCycle(g: Graph, dependencies: seq<Key>, key: Key, p: seq<Key>)
    requires LeadsTo(g, p, dependencies, key)
    ensures IsCycle(g[key := dependencies], [key] + p)
  {
    var next, loop := g[key := dependencies], [key] + p;
    forall i | 0 <= i < |loop| ensures loop[i] in next && (i < |loop| - 1 ==> loop[i + 1] in next[loop[i]]) {
      if 0 < i < |loop| - 1 {
        assert loop[i] == p[i - 1] && p[i - 1] in p[..|p| - 1];
        assert p[i - 1 + 1] in g[p[i - 1]];
      }
    }
  }

  /** Giving a key new dependencies closes a cycle in an acyclic graph if and only if stored dependencies
      lead from one of them back to the key. */
  lemma ClosesCycleExactlyWhen(g: Graph, dependencies: seq<Key>, key: Key)
    requires !HasCycle(g)
    ensures HasCycle(g[key := dependencies]) <==> LeadsBack(g, dependencies, key)
  {
    var next := g[key := dependencies];
    if HasCycle(next) {
      var p :| IsCycle(next, p);
      if key in p {
        var a :| 0 <= a < |p| && p[a] == key;
        Rotated(next, p, a);
        CycleLeadsBack(g, dependencies, key, p[a..] + p[1..a + 1]);
      } else {
        assert IsCycle(g, p);
      }
    }
    if LeadsBack(g, dependencies, key) {
      var p :| LeadsTo(g, p, dependencies, key);
      BackIsCycle(g, dependencies, key, p);
    }
  }

  /** The prospective plan has a cycle exactly when the item takes part in the graph and leads back to itself. */
  lemma UpsertCycles(plan: Plan, d: Draft, attempt: nat)
    requires !HasCycle(Dependencies(plan))
    ensures HasCycle(Dependencies(plan[d.key := Normalized(plan, d, attempt)]))
            <==> d.criterionAware && LeadsBack(Dependencies(plan), d.dependencies, d.key)
  {
    var g, next := Dependencies(plan), Dependencies(plan[d.key := Normalized(plan, d, attempt)]);
    if d.criterionAware {
      assert next == g[d.key := d.dependencies];
      ClosesCycleExactlyWhen(g, d.dependencies, d.key);
    } else if HasCycle(next) {
      var p :| IsCycle(next, p);
      assert IsCycle(g, p);
    }
  }

  /** The plan after one upsert, accepted or refused: refused where a check objects or the item depends on
      something that leads back to it. */
  ghost function AfterUpsert(plan: Plan, d: Draft, attempt: nat): Plan {
    if Objection(plan, d).Some? || (d.criterionAware && LeadsBack(Dependencies(plan), d.dependencies, d.key)) then plan
    else plan[d.key := Normalized(plan, d, attempt)]
  }

  /** A criterion-aware item is objected to exactly when it has too many or repeated dependencies, depends on
      itself, names something unknown, or changes the scope of a stored item without a reason. */
  lemma ObjectsExactlyWhen(plan: Plan, d: Draft)
    ensures Objection(plan, d) == None <==>
              !d.criterionAware
              || (&& |d.dependencies| <= 50 && d.known
                  && (forall i, j :: 0 <= i < j < |d.dependencies| ==> d.dependencies[i] != d.dependencies[j])
                  && (forall i :: 0 <= i < |d.dependencies| ==> d.dependencies[i] != d.key)
                  && (d.key in plan && plan[d.key].metadata.Some? && |d.replanReason| == 0 ==>
                        && plan[d.key].title == d.title
                        && plan[d.key].metadata.value.objectiveIds == d.objectiveIds
                        && plan[d.key].metadata.value.criterionIds == d.criterionIds
                        && plan[d.key].metadata.value.dependencies == d.dependencies))
  {
  }

  /** The columns of an accepted item are those of its draft; it keeps the attempt in which it was first
      criterion-aware, and loses all metadata when it no longer is. */
  predicate Drafted(plan: Plan, d: Draft, attempt: nat, item: PlanItem) {
    && (item.key, item.title, item.status, item.required, item.position)
       == (d.key, d.title, d.status, d.required, d.position)
    && (item.metadata.Some? <==> d.criterionAware)
    && (item.metadata.Some? ==>
          var m := item.metadata.value;
          && (m.objectiveIds, m.criterionIds, m.dependencies, m.evidenceRefs, m.replanReason)
             == (d.objectiveIds, d.criterionIds, d.dependencies, d.evidenceRefs, d.replanReason)
          && m.updatedAttempt == attempt
          && (d.key in plan && plan[d.key].metadata.Some? ==>
                m.createdAttempt == plan[d.key].metadata.value.createdAttempt)
          && (d.key !in plan || plan[d.key].metadata.None? ==> m.createdAttempt == attempt))
  }

  function History(revisions: map<Key, seq<PlanItem>>, key: Key): seq<PlanItem> {
    if key in revisions then revisions[key] else []
  }

  class PlanStore {
    var items: Plan
    var revisions: map<Key, seq<PlanItem>>

    ghost predicate Valid()
      reads this
    {
      && !HasCycle(Dependencies(items))
      && (forall k :: k in items ==> items[k].key == k)
      && LatestRevisions(items, revisions)
    }

    constructor ()
      ensures Valid() && items == map[]
    {
      items, revisions := map[], map[];
    }

    /** `upsertPlanItem`: refused exactly when a check objects or the prospective plan has a cycle. */
    method UpsertPlanItem(d: Draft, attempt: nat) returns (result: UpsertResult)
      requires Valid()
      modifies this
      ensures Valid() && items == AfterUpsert(old(items), d, attempt)
      ensures Objection(old(items), d).Some? ==> result == Refused(Objection(old(items), d).value)
      ensures Objection(old(items), d).None? ==>
                result == if HasCycle(Dependencies(old(items)[d.key := Normalized(old(items), d, attempt)]))
                          then Refused(Cyclic) else Stored
      ensures result == Stored ==> d.key in items && Drafted(old(items), d, attempt, items[d.key])
                                   && items == old(items)[d.key := items[d.key]]
      ensures result == Stored ==>
                revisions == if d.criterionAware && (d.key !in old(items) || old(items)[d.key] != items[d.key])
                             then old(revisions)[d.key := History(old(revisions), d.key) + [items[d.key]]]
                             else old(revisions)
      ensures result != Stored ==> items == old(items) && revisions == old(revisions)
    {
      var objection := Objection(items, d);
      if objection.Some? { return Refused(objection.value); }
      var item := Normalized(items, d, attempt);
      UpsertCycles(items, d, attempt);
      var cyclic := CyclicPlanItemKeys(items[d.key := item]);
      if cyclic != [] { return Refused(Cyclic); }
      var prior := if d.key in items then Some(items[d.key]) else None;
      RevisedLatest(items, revisions, item);
      assert Drafted(items, d, attempt, item) by { DraftedNormally(items, d, attempt); }
      items := items[d.key := item];
      if item.metadata.Some? && prior != Some(item) {
        revisions := revisions[d.key := (if d.key in revisions then revisions[d.key] else []) + [item]];
      }
      result := Stored;
    }
  }

  /** The newest revision of a criterion-aware item is the stored item. */
  ghost predicate LatestRevisions(items: Plan, revisions: map<Key, seq<PlanItem>>) {
    forall k :: k in items && items[k].metadata.Some? ==>
      k in revisions && revisions[k] != [] && revisions[k][|revisions[k]| - 1] == items[k]
  }

  lemma RevisedLatest(items: Plan, revisions: map<Key, seq<PlanItem>>, item: PlanItem)
    requires LatestRevisions(items, revisions)
    ensures var k := item.key;
            LatestRevisions(items[k := item],
                            if item.metadata.Some? && (k !in items || items[k] != item)
                            then revisions[k := History(revisions, k) + [item]] else revisions)
  {
  }

  lemma DraftedNormally(plan: Plan, d: Draft, attempt: nat)
    ensures Drafted(plan, d, attempt, Normalized(plan, d, attempt))
  {
  }

  ghost function AfterUpserts(plan: Plan, drafts: seq<(Draft, nat)>): Plan
    decreases |drafts|
  {
    if drafts == [] then plan
    else AfterUpserts(AfterUpsert(plan, drafts[0].0, drafts[0].1), drafts[1..])
  }

  /** The stored plan stays acyclic under every sequence of upserts, including items that name
      dependencies inserted only later and items that lose their metadata, although a step looks only for
      a way back to the one item it stores. */
  lemma {:induction false} PlanStaysAcyclic(plan: Plan, drafts: seq<(Draft, nat)>)
    requires !HasCycle(Dependencies(plan))
    ensures !HasCycle(Dependencies(AfterUpserts(plan, drafts)))
    decreases |drafts|
  {
    if drafts != [] {
      UpsertCycles(plan, drafts[0].0, drafts[0].1);
      PlanStaysAcyclic(AfterUpsert(plan, drafts[0].0, drafts[0].1), drafts[1..]);
    }
  }

  /** An edge that closes a loop through a stored path is refused: the cycle check is not vacuous. */
  lemma BackEdgeIsRefused(plan: Plan, d: Draft, attempt: nat, p: seq<Key>)
    requires IsPath(Dependencies(plan), p) && p[|p| - 1] == d.key && d.key !in p[..|p| - 1]
    requires d.criterionAware && p[0] in d.dependencies
    ensures HasCycle(Dependencies(plan[d.key := Normalized(plan, d, attempt)]))
    ensures AfterUpsert(plan, d, attempt) == plan
  {
    var g, next := Dependencies(plan), Dependencies(plan[d.key := Normalized(plan, d, attempt)]);
    assert next == g[d.key := d.dependencies];
    assert LeadsTo(g, p, d.dependencies, d.key);
    BackIsCycle(g, d.dependencies, d.key, p);
  }

  /** A dependency on a key that is stored nowhere never closes a cycle by itself. */
  lemma DanglingIsHarmless(g: Graph, key: Key, extra: Key)
    requires key in g && extra !in g && !HasCycle(g)
    ensures !HasCycle(g[key := g[key] + [extra]])
  {
    var next := g[key := g[key] + [extra]];
    forall p | IsCycle(next, p) ensures false {
      forall i | 0 <= i < |p| - 1 ensures p[i + 1] in g[p[i]] {
        assert p[i + 1] in next[p[i]] && p[i + 1] != extra;
      }
      assert IsCycle(g, p);
    }
  }
}
