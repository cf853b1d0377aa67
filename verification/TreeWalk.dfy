// Listing the live descendants of a process: the worklist walk over
// /proc/pid/task/*/children and its full-scan fallback.

/** Both walks, on one atomic snapshot of /proc. */
module TreeWalk {
  import opened Wrappers

  /** The fields of /proc/pid/stat the walks read. */
  datatype Stat = Stat(zombie: bool, ppid: nat, start: nat)

  type Snapshot = map<nat, Stat>

  /** age orders the snapshot so that parents come before their children. */
  ghost predicate Forest(s: Snapshot, age: map<nat, nat>) {
    forall p :: p in s ==> p in age && (s[p].ppid in s ==> s[p].ppid in age && age[s[p].ppid] < age[p])
  }

  /** p is a strict descendant of root. Zombies on the way do not matter. */
  ghost predicate Descends(s: Snapshot, age: map<nat, nat>, p: nat, root: nat)
    requires Forest(s, age)
    decreases if p in s then age[p] + 1 else 0
  {
    p in s && (s[p].ppid == root || Descends(s, age, s[p].ppid, root))
  }

  /** What both walks must return. */
  ghost function LiveDescendants(s: Snapshot, age: map<nat, nat>, root: nat): map<nat, nat>
    requires Forest(s, age)
  {
    map p | p in s && !s[p].zombie && Descends(s, age, p, root) :: s[p].start
  }

  /** chain[0] is the process, each later element is the parent of the one before. */
  ghost predicate ParentChain(s: Snapshot, chain: seq<nat>) {
    forall i :: 0 <= i < |chain| - 1 ==> chain[i] in s && s[chain[i]].ppid == chain[i + 1]
  }

  /** Descent is the existence of a chain of parent links of length at least one. */
  lemma {:induction false} DescendsIffChain(s: Snapshot, age: map<nat, nat>, p: nat, root: nat)
    requires Forest(s, age)
    ensures Descends(s, age, p, root) <==>
            exists chain: seq<nat> :: |chain| >= 2 && chain[0] == p && chain[|chain| - 1] == root && ParentChain(s, chain)
  {
    if Descends(s, age, p, root) {
      var chain := ChainOf(s, age, p, root);
    }
    forall chain: seq<nat> | |chain| >= 2 && chain[0] == p && chain[|chain| - 1] == root && ParentChain(s, chain)
      ensures Descends(s, age, p, root)
    {
      ChainDescends(s, age, chain);
    }
  }

  lemma {:induction false} ChainOf(s: Snapshot, age: map<nat, nat>, p: nat, root: nat) returns (chain: seq<nat>)
    requires Forest(s, age) && Descends(s, age, p, root)
    ensures |chain| >= 2 && chain[0] == p && chain[|chain| - 1] == root && ParentChain(s, chain)
    decreases age[p]
  {
    if s[p].ppid == root {
      chain := [p, root];
    } else {
      var rest := ChainOf(s, age, s[p].ppid, root);
      chain := [p] + rest;
    }
  }

  lemma {:induction false} ChainDescends(s: Snapshot, age: map<nat, nat>, chain: seq<nat>)
    requires Forest(s, age) && |chain| >= 2 && ParentChain(s, chain)
    ensures Descends(s, age, chain[0], chain[|chain| - 1])
    decreases |chain|
  {
    if |chain| > 2 {
      var rest := chain[1..];
      forall i | 0 <= i < |rest| - 1 ensures rest[i] in s && s[rest[i]].ppid == rest[i + 1] {
        assert rest[i] == chain[i + 1];
      }
      ChainDescends(s, age, rest);
      assert chain[0] in s && s[chain[0]].ppid == rest[0];
    }
  }

  lemma {:induction false} DescendantsAreYounger(s: Snapshot, age: map<nat, nat>, p: nat, root: nat)
    requires Forest(s, age) && Descends(s, age, p, root) && root in s
    ensures age[root] < age[p]
    decreases age[p]
  {
    if s[p].ppid != root {
      DescendantsAreYounger(s, age, s[p].ppid, root);
    }
  }

  /** A set that holds root and every child of its members holds every descendant of root. */
  lemma {:induction false} ClosedSetHoldsDescendants(s: Snapshot, age: map<nat, nat>, root: nat, closed: set<nat>, p: nat)
    requires Forest(s, age) && root in closed
    requires forall c :: c in s && s[c].ppid in closed ==> c in closed
    requires Descends(s, age, p, root)
    ensures p in closed
    decreases age[p]
  {
    if s[p].ppid != root {
      ClosedSetHoldsDescendants(s, age, root, closed, s[p].ppid);
    }
  }

  ghost predicate Distinct(xs: seq<nat>) {
    forall i, j :: 0 <= i < j < |xs| ==> xs[i] != xs[j]
  }

  /** xs lists the children of p, each once, in some order. */
  ghost predicate IsChildList(s: Snapshot, p: nat, xs: seq<nat>) {
    Distinct(xs) && forall c :: c in xs <==> c in s && s[c].ppid == p
  }

  /** The kernel's children files: None where CONFIG_PROC_CHILDREN is missing. */
  ghost predicate IsChildrenFile(s: Snapshot, file: nat -> Option<seq<nat>>) {
    forall p: nat :: file(p).Some? ==> IsChildList(s, p, file(p).value)
  }

  // -------------------------------------------------------------------------
  // The invariant of both worklists
  // -------------------------------------------------------------------------

  /** reached: everything ever queued. done: what was popped and whose children are all queued.
      partial: children of the node being expanded that are already queued. */
  ghost predicate Progress(s: Snapshot, age: map<nat, nat>, root: nat, reached: set<nat>, queue: seq<nat>, done: set<nat>)
    requires Forest(s, age)
  {
    && root in reached && Distinct(queue)
    && (forall p :: p in reached <==> p in queue || p in done)
    && (forall p :: p in queue ==> p !in done)
    && (forall p :: p in reached && p != root ==> Descends(s, age, p, root) && s[p].ppid in done)
    && (forall c :: c in s && s[c].ppid in done ==> c in reached)
  }

  ghost predicate FoundMatches(s: Snapshot, root: nat, reached: set<nat>, found: map<nat, nat>) {
    && (forall p :: p in found <==> p in reached && p != root && p in s && !s[p].zombie)
    && (forall p :: p in found ==> p in s && found[p] == s[p].start)
  }

  lemma WalkDone(s: Snapshot, age: map<nat, nat>, root: nat, reached: set<nat>, done: set<nat>, found: map<nat, nat>)
    requires Forest(s, age) && Progress(s, age, root, reached, [], done) && FoundMatches(s, root, reached, found)
    ensures found == LiveDescendants(s, age, root)
  {
    forall p | Descends(s, age, p, root) ensures p in reached && p != root {
      ClosedSetHoldsDescendants(s, age, root, reached, p);
      if p == root {
        DescendantsAreYounger(s, age, root, root);
      }
    }
  }

  /** The root is not its own descendant, and no child of an unopened node was reached before. */
  lemma ChildIsNew(s: Snapshot, age: map<nat, nat>, root: nat, reached: set<nat>, queue: seq<nat>, done: set<nat>, parent: nat, c: nat)
    requires Forest(s, age) && Progress(s, age, root, reached, queue, done)
    requires parent in queue && c in s && s[c].ppid == parent
    ensures c !in reached && c != root && Descends(s, age, c, root)
  {
    assert parent == root || Descends(s, age, parent, root);
    assert Descends(s, age, c, root);
    if c == root {
      DescendantsAreYounger(s, age, root, root);
    }
  }

  lemma DistinctParts(queue: seq<nat>)
    requires Distinct(queue) && queue != []
    ensures var rest, last := queue[..|queue| - 1], queue[|queue| - 1];
      Distinct(rest) && last !in rest && forall p :: p in queue <==> p in rest || p == last
  {
    assert queue == queue[..|queue| - 1] + [queue[|queue| - 1]];
  }

  lemma DistinctConcat(a: seq<nat>, b: seq<nat>)
    requires Distinct(a) && Distinct(b) && forall p :: p in a ==> p !in b
    ensures Distinct(a + b)
  {
    forall i, j | 0 <= i < j < |a + b| ensures (a + b)[i] != (a + b)[j] {
      if i < |a| <= j {
        assert a[i] in a && b[j - |a|] in b;
      }
    }
  }

  /** One popped node: the queue loses it and gains all its children, none of them seen before. */
  lemma Expanded(s: Snapshot, age: map<nat, nat>, root: nat, reached: set<nat>, queue: seq<nat>, done: set<nat>, children: seq<nat>)
    requires Forest(s, age) && Progress(s, age, root, reached, queue, done)
    requires queue != []
    requires IsChildList(s, queue[|queue| - 1], children)
    ensures var parent := queue[|queue| - 1];
      && Progress(s, age, root, reached + (set c | c in children), queue[..|queue| - 1] + children, done + {parent})
      && (forall c :: c in children ==> c !in reached && c != root)
  {
    var parent, rest := queue[|queue| - 1], queue[..|queue| - 1];
    DistinctParts(queue);
    forall c | c in children ensures c !in reached && c != root && Descends(s, age, c, root) {
      ChildIsNew(s, age, root, reached, queue, done, parent, c);
    }
    DistinctConcat(rest, children);
  }

  /** The inner loop of both walks: note the live children, queue all of them. */
  method QueueChildren(s: Snapshot, ghost root: nat, children: seq<nat>, ghost reached: set<nat>,
                       queue: seq<nat>, found: map<nat, nat>)
    returns (queue': seq<nat>, found': map<nat, nat>)
    requires Distinct(children) && FoundMatches(s, root, reached, found)
    requires forall c :: c in children ==> c in s && c !in reached && c != root
    ensures queue' == queue + children
    ensures FoundMatches(s, root, reached + (set c | c in children), found')
  {
    queue', found' := queue, found;
    for i := 0 to |children|
      invariant queue' == queue + children[..i]
      invariant forall p :: p in found' <==> p in found || (p in children[..i] && !s[p].zombie)
      invariant forall p :: p in found' ==> p in s && found'[p] == s[p].start
    {
      var child := children[i];
      assert child in children && child !in children[..i];
      assert children[..i + 1] == children[..i] + [child];
      if child in found' { continue; }
      if !s[child].zombie {
        found' := found'[child := s[child].start];
      }
      queue' := queue' + [child];
    }
    assert children[..|children|] == children;
  }

  lemma SmallerRest(all: set<nat>, done: set<nat>, p: nat)
    requires p in all && p !in done
    ensures |all - (done + {p})| < |all - done|
  {
    assert all - (done + {p}) == (all - done) - {p};
  }

  /** list_descendants: pop a process, queue its children, note the live ones. */
  method ListDescendants(s: Snapshot, ghost age: map<nat, nat>, root: nat, file: nat -> Option<seq<nat>>, pids: seq<nat>)
    returns (found: map<nat, nat>)
    requires Forest(s, age) && IsChildrenFile(s, file)
    requires Distinct(pids) && forall p :: p in pids <==> p in s
    ensures found == LiveDescendants(s, age, root)
  {
    found := map[];
    var queue := [root];
    ghost var reached, done := {root}, {};
    while queue != []
      invariant Progress(s, age, root, reached, queue, done) && FoundMatches(s, root, reached, found)
      invariant done <= s.Keys + {root}
      decreases |s.Keys + {root} - done|
    {
      var parent := queue[|queue| - 1];
      var listing := file(parent);
      if listing.None? {
        found := ListByScan(s, age, root, pids);
        return;
      }
      Expanded(s, age, root, reached, queue, done, listing.value);
      assert parent in queue;
      SmallerRest(s.Keys + {root}, done, parent);
      queue, found := QueueChildren(s, root, listing.value, reached, queue[..|queue| - 1], found);
      reached, done := reached + (set c | c in listing.value), done + {parent};
    }
    WalkDone(s, age, root, reached, done, found);
  }

  /** children_of of the scan: every pid filed under its parent. */
  ghost predicate IsChildIndex(s: Snapshot, index: map<nat, seq<nat>>, pids: seq<nat>) {
    && (forall p :: p in index ==> Distinct(index[p]))
    && (forall p, c :: p in index && c in index[p] ==> c in pids && c in s && s[c].ppid == p)
    && (forall c :: c in pids && c in s ==> s[c].ppid in index && c in index[s[c].ppid])
  }

  method IndexChildren(s: Snapshot, pids: seq<nat>) returns (index: map<nat, seq<nat>>)
    requires Distinct(pids) && forall p :: p in pids ==> p in s
    ensures IsChildIndex(s, index, pids)
  {
    index := map[];
    for i := 0 to |pids|
      invariant IsChildIndex(s, index, pids[..i])
    {
      var pid := pids[i];
      assert pid in pids && pid !in pids[..i];
      assert pids[..i + 1] == pids[..i] + [pid];
      var p := s[pid].ppid;
      index := index[p := (if p in index then index[p] else []) + [pid]];
    }
    assert pids[..|pids|] == pids;
  }

  lemma IndexListsChildren(s: Snapshot, index: map<nat, seq<nat>>, pids: seq<nat>, p: nat)
    requires IsChildIndex(s, index, pids) && forall q :: q in pids <==> q in s
    ensures IsChildList(s, p, if p in index then index[p] else [])
  {
  }

  /** _list_descendants_by_scan: one pass over every pid, then the same worklist. */
  method ListByScan(s: Snapshot, ghost age: map<nat, nat>, root: nat, pids: seq<nat>) returns (found: map<nat, nat>)
    requires Forest(s, age)
    requires Distinct(pids) && forall p :: p in pids <==> p in s
    ensures found == LiveDescendants(s, age, root)
  {
    var index := IndexChildren(s, pids);
    found := map[];
    var queue := [root];
    ghost var reached, done := {root}, {};
    while queue != []
      invariant Progress(s, age, root, reached, queue, done) && FoundMatches(s, root, reached, found)
      invariant done <= s.Keys + {root}
      decreases |s.Keys + {root} - done|
    {
      var parent := queue[|queue| - 1];
      var children := if parent in index then index[parent] else [];
      IndexListsChildren(s, index, pids, parent);
      Expanded(s, age, root, reached, queue, done, children);
      assert parent in queue;
      SmallerRest(s.Keys + {root}, done, parent);
      queue, found := QueueChildren(s, root, children, reached, queue[..|queue| - 1], found);
      reached, done := reached + (set c | c in children), done + {parent};
    }
    WalkDone(s, age, root, reached, done, found);
  }
}
