/** The paged index of the whole transcript tree. Pages come in any order and at
    any revision; a page that does not continue the loaded prefix starts over. */
module TreeIndex {
  import opened CodeUnits
  import opened Collections
  import opened Transcript
  import opened SelectedSessionCache

  datatype Node = Node(id: Id, parentId: Option<Id>, sourceLeafId: Option<Id>, sequence: int, isSummary: bool, hint: int)

  datatype Page = Page(
    sessionId: SessionId,
    activeLeafId: Option<Id>,
    transcriptRevision: int,
    afterSequence: int,
    maxSequence: int,
    complete: bool,
    nodes: seq<Node>)

  datatype Tree = Tree(
    sessionId: SessionId,
    nodesById: map<Id, Node>,
    children: map<Option<Id>, seq<Id>>,
    order: seq<Id>,
    activeLeafId: Option<Id>,
    revision: Option<int>,
    loadedPrefix: int,
    maxSequence: int,
    complete: bool)

  function EmptyTree(sessionId: SessionId): Tree { Tree(sessionId, map[], map[], [], None, None, 0, 0, false) }

  /** `displayParentIdForNode` */
  function DisplayParentOf(node: Node, byId: map<Id, Node>): Option<Id> {
    var parent := if node.isSummary then node.sourceLeafId else node.parentId;
    if parent.Some? && parent.value !in byId then None else parent
  }

  // ---------- Order by sequence ----------

  /** The loaded ids, each once, by ascending sequence. */
  ghost predicate IsOrder(order: seq<Id>, byId: map<Id, Node>) {
    && Distinct(order) && Members(order) == byId.Keys
    && forall i, j | 0 <= i < j < |order| :: order[i] in byId && order[j] in byId &&
         byId[order[i]].sequence <= byId[order[j]].sequence
  }

  method FirstBySequence(ids: set<Id>, byId: map<Id, Node>) returns (first: Id)
    requires ids != {} && ids <= byId.Keys
    ensures first in ids && forall id | id in ids :: byId[first].sequence <= byId[id].sequence
  {
    ghost var w: Id := Any(ids);
    assert w in ids;
    first :| first in ids;
    var rest := ids - {first};
    while rest != {}
      invariant rest <= ids && first in ids
      invariant forall id | id in ids && id !in rest :: byId[first].sequence <= byId[id].sequence
      decreases |rest|
    {
      ghost var v: Id := Any(rest);
      assert v in rest;
      var id :| id in rest;
      rest := rest - {id};
      if byId[id].sequence < byId[first].sequence { first := id; }
    }
  }

  /** The ids outside `rest` are in order, and none of them comes after one in `rest`. */
  ghost predicate SortedSoFar(order: seq<Id>, rest: set<Id>, byId: map<Id, Node>) {
    && rest <= byId.Keys && Distinct(order) && Members(order) == byId.Keys - rest
    && (forall i | 0 <= i < |order| :: order[i] in byId)
    && (forall i, id | 0 <= i < |order| && id in rest :: byId[order[i]].sequence <= byId[id].sequence)
    && (forall i, j | 0 <= i < j < |order| :: byId[order[i]].sequence <= byId[order[j]].sequence)
  }

  lemma SortNext(order: seq<Id>, rest: set<Id>, byId: map<Id, Node>, first: Id)
    requires SortedSoFar(order, rest, byId) && first in rest
    requires forall id | id in rest :: byId[first].sequence <= byId[id].sequence
    ensures SortedSoFar(order + [first], rest - {first}, byId)
  {
    MembersSnoc(order, first);
    assert forall i | 0 <= i < |order| :: order[i] in Members(order);
    hide Members;
  }

  /** `Array.from(values).sort((left, right) => left.sequence - right.sequence)`, as ids. */
  method SortBySequence(byId: map<Id, Node>) returns (order: seq<Id>)
    ensures IsOrder(order, byId)
  {
    order := [];
    var rest := byId.Keys;
    while rest != {}
      invariant SortedSoFar(order, rest, byId)
      decreases |rest|
    {
      var first := FirstBySequence(rest, byId);
      SortNext(order, rest, byId, first);
      order := order + [first];
      rest := rest - {first};
    }
  }

  // ---------- The child table ----------

  function Below(order: seq<Id>, byId: map<Id, Node>, parent: Option<Id>): seq<Id> {
    if order == [] then []
    else
      var last := order[|order| - 1];
      var earlier := Below(order[..|order| - 1], byId, parent);
      if last in byId && DisplayParentOf(byId[last], byId) == parent then earlier + [last] else earlier
  }

  function ChildrenOf(children: map<Option<Id>, seq<Id>>, parent: Option<Id>): seq<Id> {
    if parent in children then children[parent] else []
  }

  /** Every parent lists exactly the nodes whose display parent it is, in tree order. */
  ghost predicate InverseOfParents(children: map<Option<Id>, seq<Id>>, order: seq<Id>, byId: map<Id, Node>) {
    && (forall parent :: ChildrenOf(children, parent) == Below(order, byId, parent))
    && (forall parent | parent in children :: children[parent] != [])
  }

  /** `buildTreeChildren` */
  method BuildTreeChildren(order: seq<Id>, byId: map<Id, Node>) returns (children: map<Option<Id>, seq<Id>>)
    ensures InverseOfParents(children, order, byId)
  {
    children := map[];
    for i := 0 to |order|
      invariant InverseOfParents(children, order[..i], byId)
    {
      assert order[..i + 1][..i] == order[..i];
      if order[i] !in byId { continue; }
      var parent := DisplayParentOf(byId[order[i]], byId);
      children := children[parent := ChildrenOf(children, parent) + [order[i]]];
    }
    assert order[..|order|] == order;
  }

  /** A node is listed below a parent exactly when that is its display parent, and once. */
  lemma {:induction false} BelowExact(order: seq<Id>, byId: map<Id, Node>, parent: Option<Id>)
    requires Distinct(order)
    ensures Distinct(Below(order, byId, parent))
    ensures forall id :: id in Below(order, byId, parent) <==>
              id in order && id in byId && DisplayParentOf(byId[id], byId) == parent
  {
    if order != [] {
      var n := |order| - 1;
      BelowExact(order[..n], byId, parent);
      assert order == order[..n] + [order[n]];
      assert order[n] !in order[..n];
    }
  }

  // ---------- Applying a page ----------

  function Put(byId: map<Id, Node>, nodes: seq<Node>): map<Id, Node> {
    if nodes == [] then byId else Put(byId, nodes[..|nodes| - 1])[nodes[|nodes| - 1].id := nodes[|nodes| - 1]]
  }

  predicate Continues(tree: Tree, page: Page) {
    tree.revision == Some(page.transcriptRevision) && page.afterSequence == tree.loadedPrefix
  }

  predicate Applies(tree: Tree, page: Page) { page.afterSequence == 0 || Continues(tree, page) }

  function LastSequence(page: Page): int {
    if page.nodes == [] then page.afterSequence else page.nodes[|page.nodes| - 1].sequence
  }

  function NodesAfter(tree: Tree, page: Page): map<Id, Node> {
    var base := if page.afterSequence == 0 || !Continues(tree, page) then map[] else tree.nodesById;
    if Applies(tree, page) then Put(base, page.nodes) else base
  }

  /** What one page makes of the tree. */
  ghost predicate Step(tree: Tree, page: Page, next: Tree) {
    if tree.sessionId != page.sessionId then next == tree
    else
      && next.sessionId == tree.sessionId
      && next.nodesById == NodesAfter(tree, page)
      && IsOrder(next.order, next.nodesById)
      && InverseOfParents(next.children, next.order, next.nodesById)
      && next.activeLeafId == (if Applies(tree, page) then page.activeLeafId else tree.activeLeafId)
      && next.revision == Some(page.transcriptRevision)
      && next.loadedPrefix == (if Applies(tree, page) then LastSequence(page) else 0)
      && next.maxSequence == (if Applies(tree, page) then page.maxSequence else 0)
      && next.complete == (Applies(tree, page) && page.complete)
  }

  /** `applyTreeIndex` */
  method ApplyTreeIndex(tree: Tree, page: Page) returns (next: Tree)
    ensures Step(tree, page, next)
  {
    if tree.sessionId != page.sessionId { return tree; }
    var byId := if page.afterSequence == 0 || !Continues(tree, page) then map[] else tree.nodesById;
    var applies := Applies(tree, page);
    if applies {
      ghost var base := byId;
      for i := 0 to |page.nodes|
        invariant byId == Put(base, page.nodes[..i])
      {
        assert page.nodes[..i + 1][..i] == page.nodes[..i];
        byId := byId[page.nodes[i].id := page.nodes[i]];
      }
      assert page.nodes[..|page.nodes|] == page.nodes;
    }
    var order := SortBySequence(byId);
    var children := BuildTreeChildren(order, byId);
    next := Tree(tree.sessionId, byId, children, order,
                 if applies then page.activeLeafId else tree.activeLeafId,
                 Some(page.transcriptRevision),
                 if applies then LastSequence(page) else 0,
                 if applies then page.maxSequence else 0,
                 applies && page.complete);
  }

  // ---------- The daemon's pages ----------

  datatype TreeKey = TreeKey(sessionId: SessionId, revision: int)

  /** All nodes of a session's transcript at a revision, by sequence. */
  type Server = map<TreeKey, seq<Node>>

  function NodeIds(nodes: seq<Node>): seq<Id> { seq(|nodes|, i requires 0 <= i < |nodes| => nodes[i].id) }

  ghost predicate ValidNodes(nodes: seq<Node>) {
    && Distinct(NodeIds(nodes))
    && (forall i | 0 <= i < |nodes| :: nodes[i].sequence > 0)
    && (forall i, j | 0 <= i < j < |nodes| :: nodes[i].sequence < nodes[j].sequence)
  }

  ghost predicate ValidServer(server: Server) { forall key | key in server :: ValidNodes(server[key]) }

  /** The sequence reached by the first `k` nodes. */
  function SequenceAt(nodes: seq<Node>, k: nat): int
    requires k <= |nodes|
  {
    if k == 0 then 0 else nodes[k - 1].sequence
  }

  /** How many nodes come up to and including the sequence. */
  function CountUpTo(nodes: seq<Node>, sequence: int): nat {
    if nodes == [] then 0
    else if nodes[|nodes| - 1].sequence <= sequence then |nodes|
    else CountUpTo(nodes[..|nodes| - 1], sequence)
  }

  lemma {:induction false} CountUpToBound(nodes: seq<Node>, sequence: int)
    ensures CountUpTo(nodes, sequence) <= |nodes|
  {
    if nodes != [] {
      CountUpToBound(nodes[..|nodes| - 1], sequence);
    }
  }

  /** Some of the nodes right after the cursor. */
  predicate IsBlock(all: seq<Node>, page: Page) {
    var from := CountUpTo(all, page.afterSequence);
    from + |page.nodes| <= |all| && page.nodes == all[from..from + |page.nodes|]
  }

  function PageKey(page: Page): TreeKey { TreeKey(page.sessionId, page.transcriptRevision) }

  /** The page is complete when it reaches the last node. */
  predicate Honest(server: Server, page: Page) {
    && PageKey(page) in server
    && var all := server[PageKey(page)];
       && IsBlock(all, page)
       && page.maxSequence == SequenceAt(all, |all|)
       && page.complete == (LastSequence(page) >= page.maxSequence)
  }

  // ---------- The loaded part is a prefix ----------

  ghost predicate SameNodes(byId: map<Id, Node>, nodes: seq<Node>) {
    forall i | 0 <= i < |nodes| && nodes[i].id in byId :: byId[nodes[i].id] == nodes[i]
  }

  /** The first `k` nodes are loaded, and no others. */
  ghost predicate Holds(byId: map<Id, Node>, all: seq<Node>, k: nat) {
    k <= |all| && byId.Keys == Members(NodeIds(all)[..k]) && SameNodes(byId, all)
  }

  ghost predicate Loaded(tree: Tree, all: seq<Node>) {
    && |tree.order| <= |all|
    && tree.order == NodeIds(all)[..|tree.order|]
    && Holds(tree.nodesById, all, |tree.order|)
    && tree.loadedPrefix == SequenceAt(all, |tree.order|)
    && (tree.complete ==> |tree.order| == |all|)
  }

  ghost predicate Inv(tree: Tree, server: Server) {
    && InverseOfParents(tree.children, tree.order, tree.nodesById)
    && if tree.revision.None? then tree == EmptyTree(tree.sessionId).(activeLeafId := tree.activeLeafId)
       else
         && TreeKey(tree.sessionId, tree.revision.value) in server
         && Loaded(tree, server[TreeKey(tree.sessionId, tree.revision.value)])
  }

  lemma {:induction false} CountAt(all: seq<Node>, k: nat)
    requires ValidNodes(all) && k <= |all|
    ensures CountUpTo(all, SequenceAt(all, k)) == k
  {
    if k < |all| {
      var init := all[..|all| - 1];
      assert NodeIds(init) == NodeIds(all)[..|all| - 1];
      assert SequenceAt(init, k) == SequenceAt(all, k);
      CountAt(init, k);
    }
  }

  lemma PutSnoc(byId: map<Id, Node>, nodes: seq<Node>, node: Node)
    ensures Put(byId, nodes + [node]) == Put(byId, nodes)[node.id := node]
  {
    assert (nodes + [node])[..|nodes|] == nodes;
  }

  lemma {:induction false} PutNext(byId: map<Id, Node>, all: seq<Node>, k: nat, e: nat)
    requires ValidNodes(all) && Holds(byId, all, k) && k <= e <= |all|
    ensures Holds(Put(byId, all[k..e]), all, e)
    decreases e
  {
    if k == e {
      assert all[k..e] == [];
    } else {
      hide Holds, ValidNodes, Put;
      PutNext(byId, all, k, e - 1);
      PutOne(Put(byId, all[k..e - 1]), all, e - 1);
      assert all[k..e] == all[k..e - 1] + [all[e - 1]];
      PutSnoc(byId, all[k..e - 1], all[e - 1]);
    }
  }

  lemma PutOne(byId: map<Id, Node>, all: seq<Node>, k: nat)
    requires ValidNodes(all) && k < |all| && Holds(byId, all, k)
    ensures Holds(byId[all[k].id := all[k]], all, k + 1)
  {
    var ids := NodeIds(all);
    assert ids[..k + 1] == ids[..k] + [ids[k]];
    MembersSnoc(ids[..k], ids[k]);
    hide Members;
    forall i | 0 <= i < |all| && i != k
      ensures all[i].id != all[k].id
    {
      assert ids[i] != ids[k];
    }
  }

  /** Two orders of the same nodes agree when no two nodes share a sequence. */
  lemma {:induction false} OrderUnique(a: seq<Id>, b: seq<Id>, key: map<Id, int>)
    requires Distinct(a) && Distinct(b) && Members(a) == Members(b) && Members(a) <= key.Keys
    requires forall x, y | x in Members(a) && y in Members(a) && key[x] == key[y] :: x == y
    requires forall i, j | 0 <= i < j < |a| :: a[i] in key && a[j] in key && key[a[i]] <= key[a[j]]
    requires forall i, j | 0 <= i < j < |b| :: b[i] in key && b[j] in key && key[b[i]] <= key[b[j]]
    ensures a == b
  {
    NonEmptyMembers(a);
    NonEmptyMembers(b);
    if a != [] {
      assert a[0] in Members(b);
      var j :| 0 <= j < |b| && b[j] == a[0];
      assert b[0] in Members(a);
      var i :| 0 <= i < |a| && a[i] == b[0];
      assert key[a[0]] <= key[a[i]] && key[b[0]] <= key[b[j]];
      assert a[0] == b[0];
      MembersTail(a);
      MembersTail(b);
      hide Members;
      OrderUnique(a[1..], b[1..], key);
    }
  }

  lemma NonEmptyMembers(ids: seq<Id>)
    ensures ids == [] <==> Members(ids) == {}
  {
    if ids != [] {
      assert ids[0] in Members(ids);
    }
  }

  lemma MembersTail(ids: seq<Id>)
    requires ids != [] && Distinct(ids)
    ensures Members(ids[1..]) == Members(ids) - {ids[0]} && Distinct(ids[1..])
  {
    forall id | id in Members(ids) && id != ids[0]
      ensures id in Members(ids[1..])
    {
      var i :| 0 <= i < |ids| && ids[i] == id;
      assert ids[1..][i - 1] == id;
    }
  }

  /** The order of the first `e` nodes is the daemon's. */
  lemma OrderOfPrefix(order: seq<Id>, byId: map<Id, Node>, all: seq<Node>, e: nat)
    requires ValidNodes(all) && Holds(byId, all, e) && IsOrder(order, byId)
    ensures order == NodeIds(all)[..e]
  {
    var ids := NodeIds(all)[..e];
    var key := map id | id in byId :: byId[id].sequence;
    forall i | 0 <= i < e
      ensures ids[i] in byId && byId[ids[i]] == all[i]
    {
      assert ids[i] == all[i].id && ids[i] in Members(ids);
    }
    forall x, y | x in Members(ids) && y in Members(ids) && key[x] == key[y]
      ensures x == y
    {
      var i :| 0 <= i < e && ids[i] == x;
      var j :| 0 <= j < e && ids[j] == y;
      assert all[i].sequence == all[j].sequence;
    }
    OrderUnique(order, ids, key);
  }

  /** Where the page's nodes go: after the loaded ones, or from the start. */
  function KeptBefore(tree: Tree, page: Page): nat {
    if page.afterSequence == 0 || !Continues(tree, page) then 0 else |tree.order|
  }

  function LoadedAfter(tree: Tree, page: Page): nat {
    KeptBefore(tree, page) + if Applies(tree, page) then |page.nodes| else 0
  }

  lemma ReachesLast(all: seq<Node>, page: Page, k: nat)
    requires ValidNodes(all) && k + |page.nodes| <= |all| && page.nodes == all[k..k + |page.nodes|]
    requires page.afterSequence == SequenceAt(all, k)
    ensures LastSequence(page) == SequenceAt(all, k + |page.nodes|)
    ensures LastSequence(page) >= SequenceAt(all, |all|) ==> k + |page.nodes| == |all|
  {
    hide Distinct;
  }

  /** The first `e` nodes are loaded, and the page says how far that is. */
  ghost predicate Reached(byId: map<Id, Node>, all: seq<Node>, page: Page, e: nat) {
    && Holds(byId, all, e) && LastSequence(page) == SequenceAt(all, e)
    && (LastSequence(page) >= SequenceAt(all, |all|) ==> e == |all|)
  }

  lemma FirstPage(tree: Tree, page: Page, all: seq<Node>)
    requires ValidNodes(all) && IsBlock(all, page) && page.afterSequence == 0
    ensures Reached(NodesAfter(tree, page), all, page, LoadedAfter(tree, page))
  {
    hide IsBlock, ValidNodes, Reached, Holds, Put;
    NothingHeld(all);
    BlockAdded(map[], all, 0, page);
  }

  lemma NextPage(tree: Tree, page: Page, all: seq<Node>)
    requires ValidNodes(all) && IsBlock(all, page) && page.afterSequence != 0 && Continues(tree, page)
    requires Holds(tree.nodesById, all, |tree.order|) && page.afterSequence == SequenceAt(all, |tree.order|)
    ensures Reached(NodesAfter(tree, page), all, page, LoadedAfter(tree, page))
  {
    hide IsBlock, ValidNodes, Reached, Holds, SequenceAt, Put, Continues;
    BlockAdded(tree.nodesById, all, |tree.order|, page);
  }

  lemma AppliedPage(tree: Tree, page: Page, server: Server)
    requires ValidServer(server) && Inv(tree, server) && Honest(server, page) && tree.sessionId == page.sessionId
    requires Applies(tree, page)
    ensures Reached(NodesAfter(tree, page), server[PageKey(page)], page, LoadedAfter(tree, page))
  {
    var all := server[PageKey(page)];
    assert ValidNodes(all) && IsBlock(all, page);
    if page.afterSequence == 0 {
      FirstPage(tree, page, all);
    } else {
      Resumes(tree, page, server);
      hide Inv, IsBlock, ValidNodes, Reached, Holds, SequenceAt, NodesAfter, LoadedAfter;
      NextPage(tree, page, all);
    }
  }

  lemma NothingHeld(all: seq<Node>)
    ensures Holds(map[], all, 0)
  {
    assert NodeIds(all)[..0] == [];
  }

  lemma Resumes(tree: Tree, page: Page, server: Server)
    requires Inv(tree, server) && tree.sessionId == page.sessionId && Continues(tree, page)
    ensures PageKey(page) in server
    ensures var all := server[PageKey(page)];
            Holds(tree.nodesById, all, |tree.order|) && page.afterSequence == SequenceAt(all, |tree.order|)
  {
    hide InverseOfParents, NodeIds, Members, SameNodes;
  }

  /** A page that starts where the first `k` nodes end. */
  lemma BlockAdded(byId: map<Id, Node>, all: seq<Node>, k: nat, page: Page)
    requires ValidNodes(all) && Holds(byId, all, k) && page.afterSequence == SequenceAt(all, k)
    requires IsBlock(all, page)
    ensures Reached(Put(byId, page.nodes), all, page, k + |page.nodes|)
  {
    CountAt(all, k);
    hide ValidNodes, CountUpTo, Put, NodeIds, Members, SameNodes;
    ReachesLast(all, page, k);
    PutNext(byId, all, k, k + |page.nodes|);
  }

  lemma StepKeeps(tree: Tree, page: Page, next: Tree, server: Server)
    requires ValidServer(server) && Inv(tree, server) && Honest(server, page) && Step(tree, page, next)
    ensures Inv(next, server)
  {
    if tree.sessionId == page.sessionId {
      var all := server[PageKey(page)];
      if Applies(tree, page) {
        AppliedPage(tree, page, server);
      } else {
        NothingHeld(all);
      }
      OrderOfPrefix(next.order, next.nodesById, all, LoadedAfter(tree, page));
      assert |next.order| == LoadedAfter(tree, page);
    }
  }

  // ---------- Snapshots ----------

  /** The tree fields of `applySelectedSnapshot`: a new revision keeps the loaded nodes. */
  function AfterSnapshot(tree: Tree, sessionId: SessionId, leaf: Option<Id>, revision: Option<int>): Tree {
    if tree.sessionId != sessionId then EmptyTree(sessionId).(activeLeafId := leaf)
    else if MovesRevision(tree, revision) then tree.(activeLeafId := leaf, revision := revision, complete := false)
    else tree.(activeLeafId := Or(tree.activeLeafId, leaf))
  }

  predicate MovesRevision(tree: Tree, revision: Option<int>) {
    tree.revision.Some? && revision.Some? && tree.revision != revision
  }

  /** Rows are only added: an earlier revision's nodes come first in a later one. */
  ghost predicate AppendOnly(server: Server) {
    forall a, b | a in server && b in server && a.sessionId == b.sessionId && a.revision <= b.revision ::
      server[a] <= server[b]
  }

  lemma OtherRevision(tree: Tree, all: seq<Node>, other: seq<Node>)
    requires ValidNodes(all) && ValidNodes(other) && (all <= other || other <= all)
    requires Loaded(tree, all) && |tree.order| <= |other|
    ensures Loaded(tree.(complete := false), other)
  {
    var k := |tree.order|;
    var ids, others := NodeIds(all), NodeIds(other);
    assert forall i | 0 <= i < k :: all[i] == other[i];
    assert ids[..k] == others[..k];
    forall i | 0 <= i < |other| && other[i].id in tree.nodesById
      ensures tree.nodesById[other[i].id] == other[i]
    {
      var j :| 0 <= j < k && others[..k][j] == other[i].id;
      assert others[j] == others[i];
      assert all[i] == other[i];
    }
  }

  /** A snapshot that moves the revision keeps the tree exact if and only if that revision has
      at least as many nodes as are loaded; one that is no older always has. */
  lemma SnapshotKeepsIff(tree: Tree, leaf: Option<Id>, revision: int, server: Server)
    requires ValidServer(server) && AppendOnly(server) && Inv(tree, server) && MovesRevision(tree, Some(revision))
    requires TreeKey(tree.sessionId, revision) in server
    ensures Inv(AfterSnapshot(tree, tree.sessionId, leaf, Some(revision)), server) <==>
            |tree.order| <= |server[TreeKey(tree.sessionId, revision)]|
    ensures revision >= tree.revision.value ==> |tree.order| <= |server[TreeKey(tree.sessionId, revision)]|
  {
    var before, after := TreeKey(tree.sessionId, tree.revision.value), TreeKey(tree.sessionId, revision);
    assert server[before] <= server[after] || server[after] <= server[before];
    assert ValidNodes(server[before]) && ValidNodes(server[after]);
    hide ValidNodes, InverseOfParents, Holds;
    if |tree.order| <= |server[after]| {
      OtherRevision(tree, server[before], server[after]);
    }
  }

  /** Otherwise the tree shows, as part of that revision, nodes the revision does not have:
      every loaded one past its end. */
  lemma SnapshotLeavesExtra(tree: Tree, leaf: Option<Id>, revision: int, server: Server, i: nat)
    requires ValidServer(server) && AppendOnly(server) && Inv(tree, server) && MovesRevision(tree, Some(revision))
    requires TreeKey(tree.sessionId, revision) in server && |server[TreeKey(tree.sessionId, revision)]| <= i < |tree.order|
    ensures var next := AfterSnapshot(tree, tree.sessionId, leaf, Some(revision));
            && next.revision == Some(revision) && next.order[i] in next.nodesById
            && next.order[i] !in NodeIds(server[TreeKey(tree.sessionId, revision)])
  {
    var before, after := TreeKey(tree.sessionId, tree.revision.value), TreeKey(tree.sessionId, revision);
    var all, fewer := server[before], server[after];
    assert all <= fewer || fewer <= all;
    assert ValidNodes(all);
    hide InverseOfParents, SameNodes;
    var ids := NodeIds(all);
    assert tree.order[i] == ids[..|tree.order|][i] == ids[i];
    assert forall j | 0 <= j < |fewer| :: NodeIds(fewer)[j] == ids[j] && ids[j] != ids[i];
  }

  // ---------- Runs ----------

  datatype Input =
    | PageArrives(page: Page)
    | SnapshotArrives(sessionId: SessionId, leaf: Option<Id>, revision: Option<int>)

  ghost predicate Moves(tree: Tree, input: Input, next: Tree) {
    match input
    case PageArrives(page) => Step(tree, page, next)
    case SnapshotArrives(sessionId, leaf, revision) => next == AfterSnapshot(tree, sessionId, leaf, revision)
  }

  /** Pages are honest; a snapshot does not fall behind the loaded nodes. */
  predicate Allowed(server: Server, tree: Tree, input: Input) {
    match input
    case PageArrives(page) => Honest(server, page)
    case SnapshotArrives(sessionId, _, revision) =>
      tree.sessionId == sessionId && MovesRevision(tree, revision) ==>
        && TreeKey(sessionId, revision.value) in server
        && |tree.order| <= |server[TreeKey(sessionId, revision.value)]|
  }

  lemma InputKeeps(tree: Tree, input: Input, next: Tree, server: Server)
    requires ValidServer(server) && (AppendOnly(server) || input.PageArrives?) && Inv(tree, server)
    requires Moves(tree, input, next) && Allowed(server, tree, input)
    ensures Inv(next, server)
  {
    match input
    case PageArrives(page) => StepKeeps(tree, page, next, server);
    case SnapshotArrives(sessionId, leaf, revision) =>
      if tree.sessionId == sessionId && MovesRevision(tree, revision) {
        SnapshotKeepsIff(tree, leaf, revision.value, server);
      }
  }

  predicate PagesOnly(inputs: seq<Input>) { forall i | 0 <= i < |inputs| :: inputs[i].PageArrives? }

  /** A run of pages and snapshots from an unloaded tree. */
  ghost predicate Run(trees: seq<Tree>, inputs: seq<Input>, server: Server) {
    && |trees| == |inputs| + 1 && trees[0] == EmptyTree(trees[0].sessionId)
    && forall i | 0 <= i < |inputs| :: Moves(trees[i], inputs[i], trees[i + 1]) && Allowed(server, trees[i], inputs[i])
  }

  lemma {:induction false} RunKeeps(trees: seq<Tree>, inputs: seq<Input>, server: Server, k: nat)
    requires ValidServer(server) && (AppendOnly(server) || PagesOnly(inputs)) && Run(trees, inputs, server) && k <= |inputs|
    ensures Inv(trees[k], server)
  {
    if k > 0 {
      RunKeeps(trees, inputs, server, k - 1);
      hide Inv, Moves, Allowed, AppendOnly;
      InputKeeps(trees[k - 1], inputs[k - 1], trees[k], server);
    }
  }

  /** Exactly the nodes up to the loaded sequence, by sequence; all of them when complete. */
  ghost predicate ExactPrefix(tree: Tree, all: seq<Node>) {
    && (forall i | 0 <= i < |all| ::
          (all[i].id in tree.nodesById <==> all[i].sequence <= tree.loadedPrefix) &&
          (all[i].id in tree.nodesById ==> tree.nodesById[all[i].id] == all[i]))
    && |tree.order| <= |all| && tree.order == NodeIds(all)[..|tree.order|]
    && (tree.complete ==> tree.order == NodeIds(all))
  }

  ghost predicate ExactChildren(tree: Tree) {
    forall parent, id :: id in ChildrenOf(tree.children, parent) <==>
      id in tree.nodesById && DisplayParentOf(tree.nodesById[id], tree.nodesById) == parent
  }

  /** Whatever the order and revisions of the pages, and whatever snapshots move the revision
      in between: the nodes are the daemon's at the cached revision up to the loaded sequence,
      listed by sequence; the child table inverts the display parents; a complete tree is the
      whole tree. */
  lemma PagesLoadAPrefix(trees: seq<Tree>, inputs: seq<Input>, server: Server, k: nat)
    requires ValidServer(server) && (AppendOnly(server) || PagesOnly(inputs)) && Run(trees, inputs, server) && k <= |inputs|
    ensures var tree := trees[k];
            && (tree.revision.None? ==> tree == EmptyTree(tree.sessionId).(activeLeafId := tree.activeLeafId))
            && (tree.revision.Some? ==>
                  && TreeKey(tree.sessionId, tree.revision.value) in server
                  && ExactPrefix(tree, server[TreeKey(tree.sessionId, tree.revision.value)]))
            && Distinct(tree.order) && tree.nodesById.Keys == Members(tree.order)
            && ExactChildren(tree)
  {
    var tree := trees[k];
    RunKeeps(trees, inputs, server, k);
    hide Run, DisplayParentOf, ExactPrefix, ExactChildren, AppendOnly;
    if tree.revision.Some? {
      var all := server[TreeKey(tree.sessionId, tree.revision.value)];
      assert ValidNodes(all);
      LoadedUpTo(tree, all);
    }
    ChildrenExact(tree);
  }

  lemma LoadedUpTo(tree: Tree, all: seq<Node>)
    requires ValidNodes(all) && Loaded(tree, all)
    ensures ExactPrefix(tree, all) && Distinct(tree.order)
  {
    var ids := NodeIds(all);
    var k := |tree.order|;
    forall i | 0 <= i < |all|
      ensures all[i].id in tree.nodesById <==> i < k
    {
      if all[i].id in tree.nodesById {
        var j :| 0 <= j < k && ids[..k][j] == all[i].id;
        assert ids[j] == ids[i];
      }
      if i < k {
        assert ids[..k][i] == all[i].id;
      }
    }
  }

  lemma ChildrenExact(tree: Tree)
    requires InverseOfParents(tree.children, tree.order, tree.nodesById) && Distinct(tree.order)
    requires tree.nodesById.Keys == Members(tree.order)
    ensures ExactChildren(tree)
  {
    forall parent: Option<Id>, id: Id
      ensures id in ChildrenOf(tree.children, parent) <==>
              id in tree.nodesById && DisplayParentOf(tree.nodesById[id], tree.nodesById) == parent
    {
      BelowExact(tree.order, tree.nodesById, parent);
      assert id in tree.order <==> id in Members(tree.order);
    }
  }

  // ---------- Loading page after page ----------

  /** A page that starts at the beginning, or where the loaded nodes of its revision end. */
  predicate Next(tree: Tree, page: Page) {
    && tree.sessionId == page.sessionId
    && (page.afterSequence == 0 || (tree.revision == Some(page.transcriptRevision) && page.afterSequence == tree.loadedPrefix))
  }

  /** Such a page adds its nodes to those loaded up to its cursor, and completes the tree exactly
      when it reaches the last node. */
  lemma PageAdds(tree: Tree, page: Page, next: Tree, server: Server)
    requires ValidServer(server) && Inv(tree, server) && Honest(server, page)
    requires Next(tree, page) && Moves(tree, PageArrives(page), next)
    ensures var all := server[PageKey(page)];
            var kept := if page.afterSequence == 0 then 0 else |tree.order|;
            && Inv(next, server) && next.sessionId == page.sessionId && next.revision == Some(page.transcriptRevision)
            && |next.order| == kept + |page.nodes| && |next.order| <= |all| && next.order == NodeIds(all)[..|next.order|]
            && next.loadedPrefix == SequenceAt(all, |next.order|)
            && (next.complete <==> |next.order| == |all|)
            && next.maxSequence == SequenceAt(all, |all|) && next.activeLeafId == page.activeLeafId
  {
    var all := server[PageKey(page)];
    StepKeeps(tree, page, next, server);
    AppliedPage(tree, page, server);
    assert ValidNodes(all);
    OrderOfPrefix(next.order, next.nodesById, all, LoadedAfter(tree, page));
    hide InverseOfParents, NodeIds, Holds, IsOrder, SameNodes;
    assert |next.order| == LoadedAfter(tree, page);
  }

  /** Pages of one revision, each from where the one before it ended. */
  ghost predicate InARow(trees: seq<Tree>, pages: seq<Page>, key: TreeKey, server: Server) {
    && |trees| == |pages| + 1 && key in server
    && (pages != [] ==> pages[0].afterSequence == 0)
    && (forall i | 0 <= i < |pages| ::
          Honest(server, pages[i]) && PageKey(pages[i]) == key && trees[i].sessionId == key.sessionId &&
          Moves(trees[i], PageArrives(pages[i]), trees[i + 1]))
    && (forall i | 0 < i < |pages| :: pages[i].afterSequence == trees[i].loadedPrefix)
  }

  function Total(pages: seq<Page>): nat {
    if pages == [] then 0 else Total(pages[..|pages| - 1]) + |pages[|pages| - 1].nodes|
  }

  /** Whatever was loaded before, pages taken in a row from the beginning load the nodes they
      carry and nothing else, in order; the tree is complete exactly when they have reached the
      last node, and is then the whole tree. */
  lemma {:induction false} PagesLoadTheTree(trees: seq<Tree>, pages: seq<Page>, key: TreeKey, server: Server)
    requires ValidServer(server) && pages != [] && InARow(trees, pages, key, server) && Inv(trees[0], server)
    ensures var all, tree := server[key], trees[|pages|];
            && Inv(tree, server) && tree.sessionId == key.sessionId && tree.revision == Some(key.revision)
            && |tree.order| == Total(pages) <= |all| && tree.order == NodeIds(all)[..Total(pages)]
            && tree.loadedPrefix == SequenceAt(all, Total(pages))
            && (tree.complete <==> Total(pages) == |all|) && (tree.complete <==> tree.order == NodeIds(all))
  {
    var n := |pages| - 1;
    var all := server[key];
    assert Honest(server, pages[n]) && PageKey(pages[n]) == key;
    if n > 0 {
      assert InARow(trees[..n + 1], pages[..n], key, server);
      hide Inv, Honest, Moves, InARow, SequenceAt;
      PagesLoadTheTree(trees[..n + 1], pages[..n], key, server);
      CursorZero(trees[n], all, server, pages[n]);
    } else {
      assert pages[..0] == [];
    }
    hide Honest, Moves, InARow, SequenceAt, Inv;
    PageAdds(trees[n], pages[n], trees[n + 1], server);
    assert |NodeIds(all)| == |all|;
  }

  /** A cursor at zero means that nothing is loaded. */
  lemma CursorZero(tree: Tree, all: seq<Node>, server: Server, page: Page)
    requires ValidServer(server) && TreeKey(tree.sessionId, page.transcriptRevision) in server
    requires all == server[TreeKey(tree.sessionId, page.transcriptRevision)]
    requires |tree.order| <= |all| && tree.loadedPrefix == SequenceAt(all, |tree.order|) && page.afterSequence == tree.loadedPrefix
    ensures page.afterSequence == 0 ==> |tree.order| == 0
  {
    assert ValidNodes(all);
  }

  // ---------- A snapshot that falls behind ----------

  const LATE: Node := Node(5, None, None, 1, false, 0)
  const LATE_PAGE: Page := Page(0, Some(5), 2, 0, 1, true, [LATE])

  /** Revision 1 has no nodes, revision 2 has one. */
  function TwoRevisions(): Server { map[TreeKey(0, 1) := [], TreeKey(0, 2) := [LATE]] }

  lemma TwoRevisionsValid()
    ensures ValidServer(TwoRevisions()) && AppendOnly(TwoRevisions())
  {
    assert ValidNodes([]);
    assert ValidNodes([LATE]);
    hide ValidNodes;
  }

  lemma LatePageHonest()
    ensures Honest(TwoRevisions(), LATE_PAGE)
  {
    assert [LATE][0..1] == [LATE] && [LATE][..0] == [];
    assert CountUpTo([LATE], 0) == CountUpTo([LATE][..0], 0);
  }

  /** A page of revision 2 and then a snapshot of revision 1, from an unloaded tree: the tree
      calls itself revision 1 and shows a node that revision does not have. */
  lemma OlderSnapshotShowsLateNode(tree: Tree, next: Tree)
    requires Moves(EmptyTree(0), PageArrives(LATE_PAGE), tree)
    requires Moves(tree, SnapshotArrives(0, None, Some(1)), next)
    ensures ValidServer(TwoRevisions()) && AppendOnly(TwoRevisions()) && Honest(TwoRevisions(), LATE_PAGE)
    ensures next.revision == Some(1) && TwoRevisions()[TreeKey(0, 1)] == [] && next.order == [5] && next.nodesById == map[5 := LATE]
  {
    TwoRevisionsValid();
    LatePageHonest();
    hide ValidServer, AppendOnly, Honest;
    assert [LATE][..0] == [];
    assert Put(map[], [LATE]) == map[5 := LATE];
    assert 5 in Members(tree.order);
    OneElement(tree.order, 5);
  }

  lemma OneElement(ids: seq<Id>, id: Id)
    requires Distinct(ids) && Members(ids) == {id}
    ensures ids == [id]
  {
    assert id in ids;
    var last := |ids| - 1;
    assert ids[0] in Members(ids) && ids[last] in Members(ids);
  }
}
