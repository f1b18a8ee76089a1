/** Process-tree reachability: the worklists that decide which processes belong to a unit
    (`enforcement/procfs.py`, `runtime/process.py`, `enforcement/backends/namespaces.py`).

    A parent map read from `/proc` while processes come and go may be anything, cycles included.
  */
module ProcessTree {
  import opened Strings

  datatype ProcRecord = ProcRecord(pid: int, ppid: int, state: string, startTime: Option<int>,
                                   userNs: Option<string>, pidNs: Option<string>, cgroup: Option<string>)
  {
    predicate Live() {
      state != "Z"
    }
  }

  // ---- what a snapshot says, read off its records ------------------------------------------------

  /** Record `i` is the one that counts for `pid`: its last. */
  ghost predicate Current(records: seq<ProcRecord>, pid: int, i: nat) {
    i < |records| && records[i].pid == pid && forall j :: i < j < |records| ==> records[j].pid != pid
  }

  ghost predicate Runs(records: seq<ProcRecord>, pid: int) {
    exists i: nat :: Current(records, pid, i) && records[i].state != "Z"
  }

  /** `pid` runs, and is still the process that started at `start`, if that was recorded. */
  ghost predicate StillRuns(records: seq<ProcRecord>, pid: int, start: Option<int>) {
    exists i: nat :: Current(records, pid, i) && records[i].state != "Z" &&
      (start == None || records[i].startTime == start)
  }

  ghost predicate ChildOf(records: seq<ProcRecord>, parent: int, child: int) {
    exists r :: r in records && r.pid == child && r.ppid == parent
  }

  ghost predicate LinkOf(records: seq<ProcRecord>, path: seq<int>, i: nat)
    requires 0 < i < |path|
  {
    ChildOf(records, path[i - 1], path[i]) && Runs(records, path[i])
  }

  /** Some record makes each process on the path a child of the one before, and it runs. */
  ghost predicate Lineage(records: seq<ProcRecord>, path: seq<int>) {
    |path| >= 2 && forall i: nat :: 0 < i < |path| ==> LinkOf(records, path, i)
  }

  ghost predicate LiveDescendant(records: seq<ProcRecord>, root: int, pid: int) {
    exists path :: Lineage(records, path) && path[0] == root && path[|path| - 1] == pid
  }

  datatype Edge = Edge(child: int, parent: int)

  // ---- the reference definition: descent along a path -------------------------------------------

  ghost predicate Step(edges: seq<Edge>, alive: set<int>, parent: int, child: int) {
    Edge(child, parent) in edges && child in alive
  }

  ghost predicate StepAt(edges: seq<Edge>, alive: set<int>, path: seq<int>, i: nat)
    requires i + 1 < |path|
  {
    Step(edges, alive, path[i], path[i + 1])
  }

  ghost predicate IsPath(edges: seq<Edge>, alive: set<int>, path: seq<int>) {
    |path| >= 2 && forall i: nat :: i < |path| - 1 ==> StepAt(edges, alive, path, i)
  }

  /** `pid` is reached from `root` by a path of one step or more, all of it, after the root, alive. */
  ghost predicate Descends(edges: seq<Edge>, alive: set<int>, root: int, pid: int) {
    exists path :: IsPath(edges, alive, path) && path[0] == root && path[|path| - 1] == pid
  }

  ghost predicate DescendsFrom(edges: seq<Edge>, alive: set<int>, roots: set<int>, pid: int) {
    exists root :: root in roots && Descends(edges, alive, root, pid)
  }

  lemma DescendsByStep(edges: seq<Edge>, alive: set<int>, roots: set<int>, parent: int, child: int)
    requires Step(edges, alive, parent, child)
    requires parent in roots || DescendsFrom(edges, alive, roots, parent)
    ensures DescendsFrom(edges, alive, roots, child)
  {
    if parent in roots {
      assert StepAt(edges, alive, [parent, child], 0);
      assert IsPath(edges, alive, [parent, child]);
      assert Descends(edges, alive, parent, child);
    } else {
      var root :| root in roots && Descends(edges, alive, root, parent);
      var path :| IsPath(edges, alive, path) && path[0] == root && path[|path| - 1] == parent;
      var longer := path + [child];
      forall i: nat | i < |longer| - 1
        ensures StepAt(edges, alive, longer, i)
      {
        assert i < |path| - 1 ==> StepAt(edges, alive, path, i);
      }
      assert Descends(edges, alive, root, child);
    }
  }

  // ---- what both worklists keep -----------------------------------------------------------------

  /** Nothing has been found that does not descend from the roots. */
  ghost predicate Sound(edges: seq<Edge>, alive: set<int>, roots: set<int>, found: set<int>) {
    found <= alive && forall pid :: pid in found ==> DescendsFrom(edges, alive, roots, pid)
  }

  ghost predicate ChildOfAny(edges: seq<Edge>, parents: set<int>, child: int) {
    exists parent :: parent in parents && Edge(child, parent) in edges
  }

  /** Everything queued is the child of a root or of something found. */
  ghost predicate Queued(edges: seq<Edge>, parents: set<int>, queue: seq<int>) {
    forall child :: child in queue ==> ChildOfAny(edges, parents, child)
  }

  /** Every step out of the roots and of what was found leads to something found or queued. */
  ghost predicate Covered(edges: seq<Edge>, alive: set<int>, parents: set<int>, found: set<int>, queue: seq<int>) {
    forall parent, child :: parent in parents && Step(edges, alive, parent, child) ==> child in found || child in queue
  }

  ghost predicate Walking(edges: seq<Edge>, alive: set<int>, roots: set<int>, found: set<int>, queue: seq<int>) {
    && Sound(edges, alive, roots, found)
    && Queued(edges, roots + found, queue)
    && Covered(edges, alive, roots + found, found, queue)
  }

  /** `queue` holds `current` and `rest`, in whatever order. */
  ghost predicate Takes(queue: seq<int>, current: int, rest: seq<int>) {
    current in queue && forall child :: child in queue <==> child == current || child in rest
  }

  lemma WalkSkips(edges: seq<Edge>, alive: set<int>, roots: set<int>, found: set<int>,
                  queue: seq<int>, current: int, rest: seq<int>)
    requires Walking(edges, alive, roots, found, queue) && Takes(queue, current, rest)
    requires current in found || current !in alive
    ensures Walking(edges, alive, roots, found, rest)
  {
  }

  lemma WalkVisits(edges: seq<Edge>, alive: set<int>, roots: set<int>, found: set<int>,
                   queue: seq<int>, current: int, rest: seq<int>, kids: seq<int>)
    requires Walking(edges, alive, roots, found, queue) && Takes(queue, current, rest) && current in alive
    requires forall child :: child in kids <==> Edge(child, current) in edges
    ensures Walking(edges, alive, roots, found + {current}, rest + kids)
  {
    var parent :| parent in roots + found && Edge(current, parent) in edges;
    DescendsByStep(edges, alive, roots, parent, current);
    var more := found + {current};
    forall child | child in rest + kids
      ensures ChildOfAny(edges, roots + more, child)
    {
      if child in rest {
        assert ChildOfAny(edges, roots + found, child);
        var p :| p in roots + found && Edge(child, p) in edges;
        assert p in roots + more;
      } else {
        assert current in roots + more;
      }
    }
    forall p, child | p in roots + more && Step(edges, alive, p, child)
      ensures child in more || child in rest + kids
    {
      if p in roots + found {
        assert child in found || child in queue;
      }
    }
  }

  lemma {:induction false} PathStaysInside(edges: seq<Edge>, alive: set<int>, roots: set<int>, found: set<int>,
                                           path: seq<int>, n: nat)
    requires IsPath(edges, alive, path) && path[0] in roots && 1 <= n < |path|
    requires Covered(edges, alive, roots + found, found, [])
    ensures path[n] in found
  {
    if n > 1 {
      PathStaysInside(edges, alive, roots, found, path, n - 1);
    }
    assert StepAt(edges, alive, path, n - 1);
  }

  /** When the queue runs dry, what was found is exactly what descends from the roots. */
  lemma WalkEnds(edges: seq<Edge>, alive: set<int>, roots: set<int>, found: set<int>)
    requires Walking(edges, alive, roots, found, [])
    ensures forall pid :: pid in found <==> DescendsFrom(edges, alive, roots, pid)
  {
    forall pid | DescendsFrom(edges, alive, roots, pid)
      ensures pid in found
    {
      var root :| root in roots && Descends(edges, alive, root, pid);
      var path :| IsPath(edges, alive, path) && path[0] == root && path[|path| - 1] == pid;
      PathStaysInside(edges, alive, roots, found, path, |path| - 1);
    }
  }

  lemma WalkBegins(edges: seq<Edge>, alive: set<int>, roots: set<int>, queue: seq<int>)
    requires Queued(edges, roots, queue)
    requires forall parent, child :: parent in roots && Edge(child, parent) in edges ==> child in queue
    ensures Walking(edges, alive, roots, {}, queue)
  {
    assert roots + {} == roots;
  }

  // ---- dictionaries and sorting -----------------------------------------------------------------

  function Kids(children: map<int, seq<int>>, parent: int): seq<int> {
    if parent in children then children[parent] else []
  }

  ghost predicate Groups(children: map<int, seq<int>>, edges: seq<Edge>) {
    forall parent, child :: child in Kids(children, parent) <==> Edge(child, parent) in edges
  }

  method ChildrenOf(edges: seq<Edge>) returns (children: map<int, seq<int>>)
    ensures Groups(children, edges)
  {
    children := map[];
    for i := 0 to |edges|
      invariant Groups(children, edges[..i])
    {
      assert edges[..i + 1] == edges[..i] + [edges[i]];
      children := children[edges[i].parent := Kids(children, edges[i].parent) + [edges[i].child]];
    }
    assert edges[..|edges|] == edges;
  }

  ghost predicate Increasing(pids: seq<int>) {
    forall i, j :: 0 <= i < j < |pids| ==> pids[i] < pids[j]
  }

  function InsertPid(pids: seq<int>, pid: int): (r: seq<int>)
    ensures forall p :: p in r <==> p == pid || p in pids
  {
    if pids == [] then [pid]
    else if pid < pids[0] then [pid] + pids
    else [pids[0]] + InsertPid(pids[1..], pid)
  }

  lemma {:induction false} InsertPidKeepsOrder(pids: seq<int>, pid: int)
    requires Increasing(pids) && pid !in pids
    ensures Increasing(InsertPid(pids, pid))
  {
    if pids != [] && pids[0] <= pid {
      InsertPidKeepsOrder(pids[1..], pid);
      var rest := InsertPid(pids[1..], pid);
      forall j | 0 <= j < |rest|
        ensures pids[0] < rest[j]
      {
        assert rest[j] in rest;
      }
    }
  }

  lemma NoneIn(pids: set<int>)
    requires forall pid :: pid !in pids
    ensures pids == {}
  {
    assert forall pid :: pid in pids <==> pid in {};
  }

  method Any(pids: set<int>) returns (pid: int)
    requires pids != {}
    ensures pid in pids
  {
    if forall p :: p !in pids {
      NoneIn(pids);
    }
    pid :| pid in pids;
  }

  method SortedPids(pids: set<int>) returns (sorted: seq<int>)
    ensures Increasing(sorted)
    ensures forall pid :: pid in sorted <==> pid in pids
  {
    sorted := [];
    var rest := pids;
    while rest != {}
      invariant rest <= pids && Increasing(sorted)
      invariant forall pid :: pid in sorted <==> pid in pids - rest
      decreases rest
    {
      var pid := Any(rest);
      InsertPidKeepsOrder(sorted, pid);
      sorted := InsertPid(sorted, pid);
      rest := rest - {pid};
    }
  }

  // ---- descendants in a snapshot ----------------------------------------------------------------

  /** The records by pid; of two with the same pid, the last. */
  function ByPid(records: seq<ProcRecord>): map<int, ProcRecord> {
    if records == [] then map[]
    else
      var last := records[|records| - 1];
      ByPid(records[..|records| - 1])[last.pid := last]
  }

  function Alive(records: seq<ProcRecord>): set<int> {
    set pid | pid in ByPid(records) && ByPid(records)[pid].Live()
  }

  /** The roots still running as the processes that were recorded: a recycled pid is not one. */
  function Confirmed(roots: map<int, Option<int>>, records: seq<ProcRecord>): set<int> {
    set pid | pid in roots && pid in Alive(records)
              && (roots[pid].None? || ByPid(records)[pid].startTime == roots[pid])
  }

  function Edges(records: seq<ProcRecord>): seq<Edge> {
    seq(|records|, i requires 0 <= i < |records| => Edge(records[i].pid, records[i].ppid))
  }

  lemma {:induction false} ByPidIsCurrent(records: seq<ProcRecord>, pid: int)
    ensures pid in ByPid(records) <==> exists i: nat :: Current(records, pid, i)
    ensures forall i: nat :: Current(records, pid, i) ==> ByPid(records)[pid] == records[i]
  {
    if records != [] {
      var n := |records| - 1;
      var before := records[..n];
      ByPidIsCurrent(before, pid);
      if records[n].pid == pid {
        assert Current(records, pid, n);
      } else {
        forall i: nat
          ensures Current(records, pid, i) <==> Current(before, pid, i)
        {
        }
      }
    }
  }

  lemma AliveIsRunning(records: seq<ProcRecord>, pid: int)
    ensures pid in Alive(records) <==> Runs(records, pid)
  {
    ByPidIsCurrent(records, pid);
  }

  lemma ConfirmedIsRunning(roots: map<int, Option<int>>, records: seq<ProcRecord>, pid: int)
    ensures pid in Confirmed(roots, records) <==> pid in roots && StillRuns(records, pid, roots[pid])
  {
    ByPidIsCurrent(records, pid);
  }

  lemma EdgesAreChildren(records: seq<ProcRecord>, parent: int, child: int)
    ensures Edge(child, parent) in Edges(records) <==> ChildOf(records, parent, child)
  {
    if ChildOf(records, parent, child) {
      var r :| r in records && r.pid == child && r.ppid == parent;
      var i :| 0 <= i < |records| && records[i] == r;
      assert Edges(records)[i] == Edge(child, parent);
    }
  }

  lemma StepsAreLinks(records: seq<ProcRecord>, path: seq<int>)
    ensures IsPath(Edges(records), Alive(records), path) <==> Lineage(records, path)
  {
    forall i: nat | 0 < i < |path|
      ensures LinkOf(records, path, i) <==> StepAt(Edges(records), Alive(records), path, i - 1)
    {
      EdgesAreChildren(records, path[i - 1], path[i]);
      AliveIsRunning(records, path[i]);
    }
    hide LinkOf, StepAt;
    forall i: nat | i < |path| - 1
      ensures StepAt(Edges(records), Alive(records), path, i) <==> LinkOf(records, path, i + 1)
    {
    }
  }

  /** Descent along the edges is descent in the snapshot. */
  lemma DescentIsLineage(records: seq<ProcRecord>, root: int, pid: int)
    ensures Descends(Edges(records), Alive(records), root, pid) <==> LiveDescendant(records, root, pid)
  {
    hide IsPath, Lineage;
    forall path
      ensures IsPath(Edges(records), Alive(records), path) <==> Lineage(records, path)
    {
      StepsAreLinks(records, path);
    }
    IsPathLong(Edges(records), Alive(records), records);
  }

  lemma IsPathLong(edges: seq<Edge>, alive: set<int>, records: seq<ProcRecord>)
    ensures forall path :: IsPath(edges, alive, path) || Lineage(records, path) ==> |path| >= 2
  {
  }

  method FirstQueue(edges: seq<Edge>, children: map<int, seq<int>>, roots: set<int>) returns (queue: seq<int>)
    requires Groups(children, edges)
    ensures Queued(edges, roots, queue)
    ensures forall parent, child :: parent in roots && Edge(child, parent) in edges ==> child in queue
  {
    queue := [];
    var rest := roots;
    while rest != {}
      invariant rest <= roots && Queued(edges, roots, queue)
      invariant forall parent, child :: parent in roots - rest && Edge(child, parent) in edges ==> child in queue
      decreases rest
    {
      var root := Any(rest);
      queue := queue + Kids(children, root);
      rest := rest - {root};
    }
  }

  lemma DescentFromRoots(roots: map<int, Option<int>>, records: seq<ProcRecord>)
    ensures forall pid :: DescendsFrom(Edges(records), Alive(records), Confirmed(roots, records), pid) <==>
              exists root :: root in roots && StillRuns(records, root, roots[root]) &&
                LiveDescendant(records, root, pid)
  {
    hide Descends, Edges, ByPid, StillRuns, LiveDescendant, Confirmed, Alive;
    forall root, pid
      ensures Descends(Edges(records), Alive(records), root, pid) <==> LiveDescendant(records, root, pid)
    {
      DescentIsLineage(records, root, pid);
    }
    forall root
      ensures root in Confirmed(roots, records) <==> root in roots && StillRuns(records, root, roots[root])
    {
      ConfirmedIsRunning(roots, records, root);
    }
  }

  /** The descendants of the confirmed roots: exactly the pids reached from one of them by a path
      of live processes, each once and in order, for any parent map, cyclic or not. */
  method DescendantsOf(roots: map<int, Option<int>>, records: seq<ProcRecord>) returns (pids: seq<int>)
    ensures Increasing(pids)
    ensures forall pid :: pid in pids <==>
              exists root :: root in roots && StillRuns(records, root, roots[root]) &&
                LiveDescendant(records, root, pid)
  {
    hide Walking, Descends, Edges, ByPid, StillRuns, LiveDescendant;
    DescentFromRoots(roots, records);
    if roots == map[] {
      assert forall root :: root !in roots;
      return [];
    }
    var byPid := ByPid(records);
    var confirmed := Confirmed(roots, records);
    if confirmed == {} {
      pids := [];
      assert forall pid :: pid in pids <==> DescendsFrom(Edges(records), Alive(records), confirmed, pid);
      return;
    }
    var edges := Edges(records);
    ghost var alive := Alive(records);
    var children := ChildrenOf(edges);
    var found := {};
    var queue := FirstQueue(edges, children, confirmed);
    WalkBegins(edges, alive, confirmed, queue);
    while queue != []
      invariant Walking(edges, alive, confirmed, found, queue)
      decreases alive - found, |queue|
    {
      var current, rest := queue[|queue| - 1], queue[..|queue| - 1];
      assert queue == rest + [current];
      if current in found || current !in byPid || !byPid[current].Live() {
        WalkSkips(edges, alive, confirmed, found, queue, current, rest);
        queue := rest;
      } else {
        WalkVisits(edges, alive, confirmed, found, queue, current, rest, Kids(children, current));
        found := found + {current};
        queue := rest + Kids(children, current);
      }
    }
    WalkEnds(edges, alive, confirmed, found);
    pids := SortedPids(found);
  }

  // ---- descendants by a parent map, deepest first -----------------------------------------------

  method ItemsOf(ppids: map<int, int>) returns (items: seq<Edge>)
    ensures forall child, parent :: Edge(child, parent) in items <==> child in ppids && ppids[child] == parent
  {
    items := [];
    var rest := ppids.Keys;
    while rest != {}
      invariant rest <= ppids.Keys
      invariant forall child, parent :: Edge(child, parent) in items <==>
                  child in ppids && child !in rest && ppids[child] == parent
      decreases rest
    {
      var child := Any(rest);
      items := items + [Edge(child, ppids[child])];
      rest := rest - {child};
    }
  }

  ghost predicate Distinct(pids: seq<int>) {
    forall i, j :: 0 <= i < j < |pids| ==> pids[i] != pids[j]
  }

  /** No process comes after its own child's turn: every child is listed before its parent. */
  ghost predicate ChildrenFirst(ppids: map<int, int>, pids: seq<int>) {
    forall i, j :: 0 <= i < |pids| && 0 <= j < |pids| && pids[i] in ppids && ppids[pids[i]] == pids[j] ==> i < j
  }

  /** The order in which a breadth-first walk meets the descendants: a parent, other than the root
      itself, comes before its child. */
  ghost predicate ParentsFirst(ppids: map<int, int>, root: int, met: seq<int>) {
    && (forall i :: 0 <= i < |met| ==> met[i] in ppids)
    && (forall i :: 0 <= i < |met| ==> ppids[met[i]] == root || ppids[met[i]] in met[..i])
  }

  ghost predicate DescendsByMap(ppids: map<int, int>, root: int, pid: int) {
    exists path: seq<int> ::
      |path| >= 2 && path[0] == root && path[|path| - 1] == pid && ParentChain(ppids, path)
  }

  /** Each process on the path is the parent of the next. */
  ghost predicate ParentChain(ppids: map<int, int>, path: seq<int>) {
    forall i :: 0 < i < |path| ==> path[i] in ppids && ppids[path[i]] == path[i - 1]
  }

  function Reversed(s: seq<int>): (r: seq<int>)
    ensures |r| == |s| && forall i :: 0 <= i < |s| ==> r[i] == s[|s| - 1 - i]
  {
    if s == [] then [] else Reversed(s[1..]) + [s[0]]
  }

  /** A walk that met parents first, read backwards, lists children first unless the root was met
      again: the first process met is always a child of the root. */
  lemma ReversedChildrenFirst(ppids: map<int, int>, root: int, met: seq<int>)
    requires ParentsFirst(ppids, root, met) && Distinct(met)
    ensures ChildrenFirst(ppids, Reversed(met)) <==> root !in met
  {
    var pids, n := Reversed(met), |met|;
    if root in met {
      var j :| 0 <= j < n && met[j] == root;
      assert ppids[met[0]] == root;
      assert pids[n - 1] == met[0] && pids[n - 1 - j] == root;
    } else {
      forall i, j | 0 <= i < n && 0 <= j < n && pids[i] in ppids && ppids[pids[i]] == pids[j]
        ensures i < j
      {
        var a, b := n - 1 - i, n - 1 - j;
        assert met[b] in met && met[b] in met[..a];
        var k :| 0 <= k < a && met[k] == met[b];
      }
    }
  }

  lemma DescentsAgree(edges: seq<Edge>, ppids: map<int, int>, root: int, pid: int)
    requires forall child, parent :: Edge(child, parent) in edges <==> child in ppids && ppids[child] == parent
    ensures DescendsFrom(edges, ppids.Keys, {root}, pid) <==> DescendsByMap(ppids, root, pid)
  {
    if DescendsFrom(edges, ppids.Keys, {root}, pid) {
      var path :| IsPath(edges, ppids.Keys, path) && path[0] == root && path[|path| - 1] == pid;
      forall i | 0 < i < |path|
        ensures path[i] in ppids && ppids[path[i]] == path[i - 1]
      {
        assert StepAt(edges, ppids.Keys, path, i - 1);
      }
    }
    if DescendsByMap(ppids, root, pid) {
      var path: seq<int> :| |path| >= 2 && path[0] == root && path[|path| - 1] == pid && ParentChain(ppids, path);
      forall i: nat | i < |path| - 1
        ensures StepAt(edges, ppids.Keys, path, i)
      {
        assert path[i + 1] in ppids && ppids[path[i + 1]] == path[i];
      }
      assert Descends(edges, ppids.Keys, root, pid);
    }
  }

  lemma MeetsNext(ppids: map<int, int>, root: int, met: seq<int>, next: int)
    requires ParentsFirst(ppids, root, met) && Distinct(met) && next !in met
    requires next in ppids && (ppids[next] == root || ppids[next] in met)
    ensures ParentsFirst(ppids, root, met + [next]) && Distinct(met + [next])
  {
    var more := met + [next];
    forall i | 0 <= i < |more|
      ensures ppids[more[i]] == root || ppids[more[i]] in more[..i]
    {
      assert more[..i] == met[..i];
      assert met[..|met|] == met;
    }
  }

  /** Every process that descends from `pid`, each once. Every child is listed before its parent
      exactly when `pid` is not its own descendant. */
  method DescendantPids(pid: int, posix: bool, ppids: map<int, int>) returns (pids: seq<int>, enumerated: bool)
    ensures enumerated <==> pid > 0 && posix && ppids != map[]
    ensures !enumerated ==> pids == []
    ensures enumerated ==> forall p :: p in pids <==> DescendsByMap(ppids, pid, p)
    ensures Distinct(pids)
    ensures ChildrenFirst(ppids, pids) <==> pid !in pids
  {
    if pid <= 0 || !posix || ppids == map[] {
      return [], false;
    }
    var edges := ItemsOf(ppids);
    var children := ChildrenOf(edges);
    ghost var alive := ppids.Keys;
    var ordered, queue, seen := [], Kids(children, pid), {};
    assert Queued(edges, {pid}, queue) by {
      assert pid in {pid};
    }
    WalkBegins(edges, alive, {pid}, queue);
    while queue != []
      invariant Walking(edges, alive, {pid}, seen, queue)
      invariant forall p :: p in ordered <==> p in seen
      invariant ParentsFirst(ppids, pid, ordered) && Distinct(ordered)
      decreases alive - seen, |queue|
    {
      var current, rest := queue[0], queue[1..];
      assert queue == [current] + rest;
      assert current in ppids && (ppids[current] == pid || ppids[current] in seen) by {
        assert ChildOfAny(edges, {pid} + seen, current);
      }
      if current in seen {
        WalkSkips(edges, alive, {pid}, seen, queue, current, rest);
        queue := rest;
      } else {
        WalkVisits(edges, alive, {pid}, seen, queue, current, rest, Kids(children, current));
        MeetsNext(ppids, pid, ordered, current);
        seen := seen + {current};
        ordered := ordered + [current];
        queue := rest + Kids(children, current);
      }
    }
    WalkEnds(edges, alive, {pid}, seen);
    forall p ensures p in seen <==> DescendsByMap(ppids, pid, p) {
      DescentsAgree(edges, ppids, pid, p);
    }
    ReversedChildrenFirst(ppids, pid, ordered);
    pids, enumerated := Reversed(ordered), true;
    ReversedSame(ordered);
  }

  lemma ReversedSame(s: seq<int>)
    ensures forall p :: p in Reversed(s) <==> p in s
    ensures Distinct(s) ==> Distinct(Reversed(s))
  {
    forall p | p in s
      ensures p in Reversed(s)
    {
      var i :| 0 <= i < |s| && s[i] == p;
      assert Reversed(s)[|s| - 1 - i] == p;
    }
  }

  // ---- is the unit empty? -----------------------------------------------------------------------

  /** Namespace inodes by kind. */
  type NamespaceIds = map<string, string>

  datatype Identity = Identity(launcherPid: Option<int>, launcherStart: Option<int>,
                               sandboxPid: Option<int>, sandboxStart: Option<int>,
                               namespaces: NamespaceIds, cgroup: Option<string>)
  {
    predicate Known() {
      namespaces != map[] || launcherPid.Some?
    }

    /** A pid of 0 is skipped like a missing one. */
    function AncestryRoots(): map<int, Option<int>> {
      var fromLauncher: map<int, Option<int>> :=
        if launcherPid.Some? && launcherPid.value != 0 then map[launcherPid.value := launcherStart] else map[];
      if sandboxPid.Some? && sandboxPid.value != 0 then fromLauncher[sandboxPid.value := sandboxStart]
      else fromLauncher
    }
  }

  datatype Scan = Scan(empty: bool, survivors: seq<int>, identityKnown: bool)

  /** The namespaces the scan goes by: those of the identity, or else the unit's own. */
  function NamespacesOf(unit: NamespaceIds, identity: Option<Identity>): NamespaceIds {
    if identity.Some? && identity.value.namespaces != map[] then identity.value.namespaces else unit
  }

  function Inode(ids: NamespaceIds, kind: string): string {
    if kind in ids then ids[kind] else ""
  }

  predicate IdentityKnown(unit: NamespaceIds, identity: Option<Identity>) {
    NamespacesOf(unit, identity) != map[] || (identity.Some? && identity.value.Known())
  }

  /** The pids of the live records satisfying `test`. */
  function LivePids(records: seq<ProcRecord>, test: ProcRecord -> bool): set<int> {
    set r | r in records && test(r) && r.Live() :: r.pid
  }

  function InPidNamespace(unit: NamespaceIds, identity: Option<Identity>, records: seq<ProcRecord>): set<int> {
    var inode := Inode(NamespacesOf(unit, identity), "pid");
    if inode == "" then {} else LivePids(records, (r: ProcRecord) => r.pidNs == Some(inode))
  }

  function InUserNamespace(unit: NamespaceIds, identity: Option<Identity>, records: seq<ProcRecord>): set<int> {
    var inode := Inode(NamespacesOf(unit, identity), "user");
    if inode == "" then {} else LivePids(records, (r: ProcRecord) => r.userNs == Some(inode))
  }

  /** A confirmed root, or descended from one. */
  ghost predicate InAncestry(identity: Option<Identity>, records: seq<ProcRecord>, pid: int) {
    identity.Some? &&
    var confirmed := Confirmed(identity.value.AncestryRoots(), records);
    pid in confirmed || DescendsFrom(Edges(records), Alive(records), confirmed, pid)
  }

  /** The recorded cgroup tells the unit apart: it is not the one the supervisor itself sits in. */
  predicate CgroupApplies(identity: Option<Identity>, ownCgroup: Option<string>) {
    identity.Some? && identity.value.cgroup.Some? && identity.value.cgroup.value != "" &&
    identity.value.cgroup != ownCgroup
  }

  function InCgroup(identity: Option<Identity>, ownCgroup: Option<string>, records: seq<ProcRecord>): set<int> {
    if CgroupApplies(identity, ownCgroup) then
      LivePids(records, (r: ProcRecord) => r.cgroup == identity.value.cgroup)
    else {}
  }

  // What survival means, read off the records.

  /** The unit goes by this inode of this kind: its identity's, or its own where that has none at all. */
  ghost predicate GoesBy(unit: NamespaceIds, identity: Option<Identity>, kind: string, inode: string) {
    inode != "" &&
    if identity.Some? && identity.value.namespaces != map[] then
      kind in identity.value.namespaces && identity.value.namespaces[kind] == inode
    else kind in unit && unit[kind] == inode
  }

  ghost predicate HasPidNamespace(unit: NamespaceIds, identity: Option<Identity>, r: ProcRecord) {
    r.pidNs.Some? && GoesBy(unit, identity, "pid", r.pidNs.value)
  }

  ghost predicate HasUserNamespace(unit: NamespaceIds, identity: Option<Identity>, r: ProcRecord) {
    r.userNs.Some? && GoesBy(unit, identity, "user", r.userNs.value)
  }

  ghost predicate HasCgroup(identity: Option<Identity>, ownCgroup: Option<string>, r: ProcRecord) {
    identity.Some? && r.cgroup.Some? && r.cgroup.value != "" && r.cgroup == identity.value.cgroup &&
    r.cgroup != ownCgroup
  }

  /** The launcher or the sandbox process, with the start recorded for it. */
  ghost predicate UnitRoot(identity: Identity, root: int, start: Option<int>) {
    root != 0 &&
    if identity.sandboxPid == Some(root) then start == identity.sandboxStart
    else identity.launcherPid == Some(root) && start == identity.launcherStart
  }

  ghost predicate OfUnit(identity: Identity, records: seq<ProcRecord>, pid: int) {
    exists root, start :: UnitRoot(identity, root, start) && StillRuns(records, root, start) &&
      (pid == root || LiveDescendant(records, root, pid))
  }

  /** `pid` is alive and belongs to the unit by one of its records, or by descent. */
  ghost predicate Survives(unit: NamespaceIds, identity: Option<Identity>, ownCgroup: Option<string>,
                           records: seq<ProcRecord>, pid: int)
  {
    || (exists r :: r in records && r.pid == pid && r.state != "Z" &&
          (HasPidNamespace(unit, identity, r) || HasUserNamespace(unit, identity, r)
           || HasCgroup(identity, ownCgroup, r)))
    || (identity.Some? && OfUnit(identity.value, records, pid))
  }

  ghost predicate Recognisable(unit: NamespaceIds, identity: Option<Identity>) {
    unit != map[] || (identity.Some? && (identity.value.namespaces != map[] || identity.value.launcherPid.Some?))
  }

  lemma RootsAreTheUnits(identity: Identity, root: int, start: Option<int>)
    ensures root in identity.AncestryRoots() && identity.AncestryRoots()[root] == start
            <==> UnitRoot(identity, root, start)
  {
  }

  lemma AncestryIsOfUnit(identity: Identity, records: seq<ProcRecord>, pid: int)
    ensures InAncestry(Some(identity), records, pid) <==> OfUnit(identity, records, pid)
  {
    var roots := identity.AncestryRoots();
    DescentFromRoots(roots, records);
    hide StillRuns, LiveDescendant, Confirmed, Alive, Edges, DescendsFrom, UnitRoot;
    ConfirmedIsRunning(roots, records, pid);
    forall root, start
      ensures root in roots && roots[root] == start <==> UnitRoot(identity, root, start)
    {
      RootsAreTheUnits(identity, root, start);
    }
    if InAncestry(Some(identity), records, pid) {
      if pid in Confirmed(roots, records) {
        assert UnitRoot(identity, pid, roots[pid]);
      } else {
        var root :| root in roots && StillRuns(records, root, roots[root]) && LiveDescendant(records, root, pid);
        assert UnitRoot(identity, root, roots[root]);
      }
    }
  }

  lemma LayersAreRecords(unit: NamespaceIds, identity: Option<Identity>, ownCgroup: Option<string>,
                         records: seq<ProcRecord>, pid: int)
    ensures pid in InPidNamespace(unit, identity, records) <==>
              exists r :: r in records && r.pid == pid && r.state != "Z" && HasPidNamespace(unit, identity, r)
    ensures pid in InUserNamespace(unit, identity, records) <==>
              exists r :: r in records && r.pid == pid && r.state != "Z" && HasUserNamespace(unit, identity, r)
    ensures pid in InCgroup(identity, ownCgroup, records) <==>
              exists r :: r in records && r.pid == pid && r.state != "Z" && HasCgroup(identity, ownCgroup, r)
  {
  }

  /** What the layers see is what survives. */
  lemma SeenIsSurviving(unit: NamespaceIds, identity: Option<Identity>, ownCgroup: Option<string>,
                        records: seq<ProcRecord>, pid: int)
    ensures Seen(unit, identity, ownCgroup, records, pid) <==> Survives(unit, identity, ownCgroup, records, pid)
  {
    LayersAreRecords(unit, identity, ownCgroup, records, pid);
    if identity.Some? {
      AncestryIsOfUnit(identity.value, records, pid);
    }
    hide InPidNamespace, InUserNamespace, InCgroup, HasPidNamespace, HasUserNamespace, HasCgroup, OfUnit;
  }

  /** Some layer of the scan sees `pid` alive. */
  ghost predicate Seen(unit: NamespaceIds, identity: Option<Identity>, ownCgroup: Option<string>,
                       records: seq<ProcRecord>, pid: int)
  {
    || pid in InPidNamespace(unit, identity, records)
    || pid in InUserNamespace(unit, identity, records)
    || InAncestry(identity, records, pid)
    || pid in InCgroup(identity, ownCgroup, records)
  }

  lemma NoRootsNoAncestry(identity: Identity, records: seq<ProcRecord>)
    requires identity.AncestryRoots() == map[]
    ensures forall pid :: !InAncestry(Some(identity), records, pid)
  {
    assert Confirmed(identity.AncestryRoots(), records) == {};
  }

  lemma NoIdentityNoAncestry(records: seq<ProcRecord>)
    ensures forall pid :: !InAncestry(None, records, pid)
  {
  }

  method AncestryHits(identity: Identity, records: seq<ProcRecord>) returns (hits: set<int>)
    ensures forall pid :: pid in hits <==> InAncestry(Some(identity), records, pid)
  {
    hits := {};
    var roots := identity.AncestryRoots();
    if roots == map[] {
      NoRootsNoAncestry(identity, records);
    } else {
      DescentFromRoots(roots, records);
      var descendants := DescendantsOf(roots, records);
      hits := (set pid | pid in descendants) + Confirmed(roots, records);
    }
  }

  /** The survivors are exactly the pids some layer sees alive, and the unit is reported empty
      exactly when its identity is known and no layer sees any. */
  method ScanSurvivors(unit: NamespaceIds, identity: Option<Identity>, ownCgroup: Option<string>,
                       records: seq<ProcRecord>) returns (scan: Scan)
    ensures scan.identityKnown <==> Recognisable(unit, identity)
    ensures Increasing(scan.survivors)
    ensures forall pid :: pid in scan.survivors <==>
              scan.identityKnown && Survives(unit, identity, ownCgroup, records, pid)
    ensures scan.empty <==>
              scan.identityKnown && forall pid :: !Survives(unit, identity, ownCgroup, records, pid)
  {
    hide Survives, InAncestry, InPidNamespace, InUserNamespace, InCgroup;
    if !IdentityKnown(unit, identity) {
      return Scan(false, [], false);
    }
    forall pid
      ensures Seen(unit, identity, ownCgroup, records, pid) <==> Survives(unit, identity, ownCgroup, records, pid)
    {
      SeenIsSurviving(unit, identity, ownCgroup, records, pid);
    }
    var survivors := InPidNamespace(unit, identity, records);
    survivors := survivors + InUserNamespace(unit, identity, records);
    if identity.Some? {
      var hits := AncestryHits(identity.value, records);
      survivors := survivors + hits;
    } else {
      assert forall pid :: !InAncestry(identity, records, pid) by {
        NoIdentityNoAncestry(records);
      }
    }
    survivors := survivors + InCgroup(identity, ownCgroup, records);
    if forall pid :: pid !in survivors {
      NoneIn(survivors);
    }
    var sorted := SortedPids(survivors);
    scan := Scan(survivors == {}, sorted, true);
  }

  /** Some layer has anything to go by. */
  predicate Sighted(unit: NamespaceIds, identity: Option<Identity>, ownCgroup: Option<string>) {
    || Inode(NamespacesOf(unit, identity), "pid") != ""
    || Inode(NamespacesOf(unit, identity), "user") != ""
    || (identity.Some? && identity.value.AncestryRoots() != map[])
    || CgroupApplies(identity, ownCgroup)
  }

  lemma SeesLayersExactly(unit: NamespaceIds, identity: Option<Identity>, ownCgroup: Option<string>)
    ensures (exists records, pid :: Seen(unit, identity, ownCgroup, records, pid))
            <==> Sighted(unit, identity, ownCgroup)
  {
    if !Sighted(unit, identity, ownCgroup) {
      forall records, pid
        ensures !Seen(unit, identity, ownCgroup, records, pid)
      {
        if identity.Some? {
          NoRootsNoAncestry(identity.value, records);
        }
      }
    } else {
      var records := Witness(unit, identity);
      assert ByPid(records[..0]) == map[];
      assert records[0] in records && records[0].Live();
      assert ByPid(records) == map[records[0].pid := records[0]];
      assert records[0].pid in Alive(records);
      if identity.Some? && identity.value.AncestryRoots() != map[] {
        assert records[0].pid in Confirmed(identity.value.AncestryRoots(), records);
      }
      assert Seen(unit, identity, ownCgroup, records, records[0].pid);
    }
  }

  /** Being known is not enough for the scan to see anything: an identity that records namespaces of
      other kinds only leaves every layer idle, and then the unit is reported empty whatever runs. The
      scan can find a survivor exactly when some layer applies. */
  lemma SeesExactly(unit: NamespaceIds, identity: Option<Identity>, ownCgroup: Option<string>)
    ensures (exists records, pid :: Survives(unit, identity, ownCgroup, records, pid))
            <==> Sighted(unit, identity, ownCgroup)
  {
    SeesLayersExactly(unit, identity, ownCgroup);
    forall records, pid
      ensures Seen(unit, identity, ownCgroup, records, pid) <==> Survives(unit, identity, ownCgroup, records, pid)
    {
      SeenIsSurviving(unit, identity, ownCgroup, records, pid);
    }
    hide Seen, Survives;
  }

  /** One process that every applicable layer sees. */
  ghost function Witness(unit: NamespaceIds, identity: Option<Identity>): (records: seq<ProcRecord>)
    ensures |records| == 1
  {
    var ids := NamespacesOf(unit, identity);
    var roots := if identity.Some? then identity.value.AncestryRoots() else map[];
    var pid :| pid in roots || roots == map[];
    [ProcRecord(pid, 0, "S", if pid in roots then roots[pid] else None, Some(Inode(ids, "user")),
                Some(Inode(ids, "pid")), if identity.Some? then identity.value.cgroup else None)]
  }

  /** Such an identity is known all the same. */
  lemma KnownButBlind()
    ensures exists identity :: Recognisable(map[], identity) && !Sighted(map[], identity, None)
  {
    var identity := Some(Identity(None, None, None, None, map["net" := "net:[4026531840]"], None));
    assert "net" != "pid" && "net" != "user";
    assert "net" in identity.value.namespaces;
    assert Recognisable(map[], identity) && !Sighted(map[], identity, None);
  }
}
