/**
 * `_DBusMenuProxy` (driveicon/trayicon.py): projects a menu model onto a
 * tree of dbusmenu nodes, keeps the reverse indexes from action names to
 * the nodes that display the action's enabled flag and state, and patches
 * those nodes when the action group reports a change.
 *
 * Nodes live in an arena: a node's identity is its index in `nodes`, node
 * 0 is the root, and a node is always created before its children.
 */
module DBusMenu {
  import opened Wrappers
  import opened Gio
  import opened VariantTypeEq
  import opened DBusMenuSpec

  type NodeId = nat

  const ROOT: NodeId := 0

  /** A `Dbusmenu.Menuitem`: its properties, its children and the activation its `item-activated` handler forwards. */
  datatype MenuNode = MenuNode(props: map<string, Prop>, children: seq<NodeId>, activation: Option<Activation>)

  function SetProp(n: MenuNode, key: string, value: Prop): MenuNode {
    n.(props := n.props[key := value])
  }

  /** `dict.get(key, [])`. */
  function Lookup<T>(index: map<string, seq<T>>, key: string): seq<T> {
    if key in index then index[key] else []
  }

  /** `dict.setdefault(key, []).append(x)`. */
  function AppendTo<T>(index: map<string, seq<T>>, key: string, x: T): (r: map<string, seq<T>>)
    ensures r.Keys == index.Keys + {key}
    ensures r[key] == Lookup(index, key) + [x]
    ensures forall a :: a in index && a != key ==> r[a] == index[a]
  {
    index[key := Lookup(index, key) + [x]]
  }

  /** Every child is created after its parent and lies inside the arena. */
  ghost predicate WellFormed(nodes: seq<MenuNode>) {
    forall k, j :: 0 <= k < |nodes| && 0 <= j < |nodes[k].children| ==> k < nodes[k].children[j] < |nodes|
  }

  /** The subtree rooted at node `k`, as a value. */
  ghost function TreeAt(nodes: seq<MenuNode>, k: NodeId): Tree
    requires WellFormed(nodes) && k < |nodes|
    decreases |nodes| - k
  {
    var n := nodes[k];
    Tree(n.props, n.activation, seq(|n.children|, j requires 0 <= j < |n.children| => TreeAt(nodes, n.children[j])))
  }

  ghost predicate InArena(nodes: seq<MenuNode>, ids: seq<NodeId>) {
    forall j :: 0 <= j < |ids| ==> ids[j] < |nodes|
  }

  /** The subtrees rooted at `ids`, in order. */
  ghost function Forest(nodes: seq<MenuNode>, ids: seq<NodeId>): seq<Tree>
    requires WellFormed(nodes) && InArena(nodes, ids)
  {
    seq(|ids|, j requires 0 <= j < |ids| => TreeAt(nodes, ids[j]))
  }

  /** `after` keeps every node of `before` from index `lo` on. */
  ghost predicate AgreeFrom(before: seq<MenuNode>, after: seq<MenuNode>, lo: nat) {
    |before| <= |after| && forall k :: lo <= k < |before| ==> after[k] == before[k]
  }

  /** A subtree reads only its own nodes, which all lie at or above its root. */
  lemma {:induction false} TreeAtFrame(before: seq<MenuNode>, after: seq<MenuNode>, lo: nat, k: NodeId)
    requires WellFormed(before) && WellFormed(after) && AgreeFrom(before, after, lo)
    requires lo <= k < |before|
    ensures TreeAt(after, k) == TreeAt(before, k)
    decreases |before| - k
  {
    var c := before[k].children;
    assert after[k] == before[k];
    forall j | 0 <= j < |c|
      ensures TreeAt(after, c[j]) == TreeAt(before, c[j])
    {
      TreeAtFrame(before, after, lo, c[j]);
    }
    assert TreeAt(after, k).children == TreeAt(before, k).children;
  }

  /** Extending the arena keeps earlier subtrees, and the forest of two id lists is their concatenation. */
  lemma ForestExtend(before: seq<MenuNode>, after: seq<MenuNode>, ids: seq<NodeId>, more: seq<NodeId>)
    requires WellFormed(before) && WellFormed(after) && before <= after
    requires InArena(before, ids) && InArena(after, more)
    ensures InArena(after, ids + more)
    ensures Forest(after, ids + more) == Forest(before, ids) + Forest(after, more)
  {
    assert AgreeFrom(before, after, 0);
    forall j | 0 <= j < |ids|
      ensures TreeAt(after, ids[j]) == TreeAt(before, ids[j])
    {
      TreeAtFrame(before, after, 0, ids[j]);
    }
  }

  /** Node `k` is a child of a node created at or after `lo` (and before `k`). */
  ghost predicate HasParent(nodes: seq<MenuNode>, lo: nat, k: NodeId) {
    exists p :: lo <= p < k && p < |nodes| && k in nodes[p].children
  }

  /** Every node created at or after `lo` is one of `roots` or a child of a node created at or after `lo`. */
  ghost predicate Attached(nodes: seq<MenuNode>, lo: nat, roots: seq<NodeId>) {
    forall k :: lo <= k < |nodes| ==> k in roots || HasParent(nodes, lo, k)
  }

  lemma AttachedExtend(before: seq<MenuNode>, after: seq<MenuNode>, lo: nat, roots: seq<NodeId>, more: seq<NodeId>)
    requires before <= after && lo <= |before|
    requires Attached(before, lo, roots) && Attached(after, |before|, more)
    ensures Attached(after, lo, roots + more)
  {
    forall k | lo <= k < |after| && k !in roots + more
      ensures HasParent(after, lo, k)
    {
      if k < |before| {
        var p :| lo <= p < k && p < |before| && k in before[p].children;
        assert after[p] == before[p];
      } else {
        var p :| |before| <= p < k && p < |after| && k in after[p].children;
      }
    }
  }

  /** Setting the children of node `k`, which had none, attaches them to it. */
  lemma AttachChildren(before: seq<MenuNode>, k: NodeId, children: seq<NodeId>, n: MenuNode)
    requires k < |before| && before[k].children == [] && n.children == children
    requires Attached(before, k + 1, children)
    ensures Attached(before[k := n], k, [k])
  {
    var after := before[k := n];
    forall j | k <= j < |after| && j != k
      ensures HasParent(after, k, j)
    {
      if j in children {
        assert j in after[k].children;
      } else {
        var p :| k + 1 <= p < j && p < |before| && j in before[p].children;
        assert after[p] == before[p];
      }
    }
  }

  predicate IsToggle(n: MenuNode) {
    n.activation.Some? && TOGGLE_TYPE in n.props
  }

  /** Whether node `k` occurs in a state-index list. */
  ghost predicate InStateList(l: seq<(NodeId, Option<Value>)>, k: NodeId) {
    exists j :: 0 <= j < |l| && l[j].0 == k
  }

  /** Every enabled-index entry under `a` is a node bound to `a`. */
  ghost predicate EnabledIndexSound(nodes: seq<MenuNode>, index: map<string, seq<NodeId>>) {
    forall a, j :: a in index && 0 <= j < |index[a]| ==>
      index[a][j] < |nodes| && nodes[index[a][j]].activation.Some? && nodes[index[a][j]].activation.value.action == a
  }

  /** Every bound node is in the enabled index under its action. */
  ghost predicate EnabledIndexComplete(nodes: seq<MenuNode>, index: map<string, seq<NodeId>>) {
    forall k :: 0 <= k < |nodes| && nodes[k].activation.Some? ==>
      nodes[k].activation.value.action in index && k in index[nodes[k].activation.value.action]
  }

  /** Every state-index entry under `a` is a toggle node bound to `a`, with the node's expected value. */
  ghost predicate StateIndexSound(nodes: seq<MenuNode>, index: map<string, seq<(NodeId, Option<Value>)>>) {
    forall a, j :: a in index && 0 <= j < |index[a]| ==>
      index[a][j].0 < |nodes| && IsToggle(nodes[index[a][j].0])
      && nodes[index[a][j].0].activation.value.action == a
      && index[a][j].1 == ExpectedOf(nodes[index[a][j].0].props, nodes[index[a][j].0].activation.value)
  }

  /** Every toggle node is in the state index under its action. */
  ghost predicate StateIndexComplete(nodes: seq<MenuNode>, index: map<string, seq<(NodeId, Option<Value>)>>) {
    forall k :: 0 <= k < |nodes| && IsToggle(nodes[k]) ==>
      nodes[k].activation.value.action in index && InStateList(index[nodes[k].activation.value.action], k)
  }

  /**
   * Bound nodes show the registry's enabled flag for their action, and
   * toggle nodes are on exactly when the action's state is their expected value.
   */
  ghost predicate Synced(nodes: seq<MenuNode>, registry: ActionGroup) {
    && (forall k :: 0 <= k < |nodes| && nodes[k].activation.Some? ==>
          ENABLED in nodes[k].props
          && nodes[k].props[ENABLED] == PBool(registry.Enabled(nodes[k].activation.value.action)))
    && (forall k :: 0 <= k < |nodes| && IsToggle(nodes[k]) ==>
          TOGGLE_STATE in nodes[k].props
          && nodes[k].props[TOGGLE_STATE]
             == PInt(ToggleState(ExpectedOf(nodes[k].props, nodes[k].activation.value),
                                 registry.State(nodes[k].activation.value.action))))
  }

  ghost predicate NoDuplicates<T>(s: seq<T>) {
    forall i, j :: 0 <= i < j < |s| ==> s[i] != s[j]
  }

  /** The set of nodes in the subtree rooted at `k`. */
  ghost function TreeIds(nodes: seq<MenuNode>, k: NodeId): set<NodeId>
    requires WellFormed(nodes) && k < |nodes|
    decreases |nodes| - k, 1
  {
    {k} + ForestIds(nodes, nodes[k].children, k)
  }

  ghost function ForestIds(nodes: seq<MenuNode>, ids: seq<NodeId>, parent: NodeId): set<NodeId>
    requires WellFormed(nodes) && forall j :: 0 <= j < |ids| ==> parent < ids[j] < |nodes|
    decreases |nodes| - parent, 0, |ids|
  {
    if ids == [] then {}
    else ForestIds(nodes, ids[..|ids| - 1], parent) + TreeIds(nodes, ids[|ids| - 1])
  }

  lemma {:induction false} ForestIdsCover(nodes: seq<MenuNode>, ids: seq<NodeId>, parent: NodeId, j: nat)
    requires WellFormed(nodes) && forall i :: 0 <= i < |ids| ==> parent < ids[i] < |nodes|
    requires j < |ids|
    ensures TreeIds(nodes, ids[j]) <= ForestIds(nodes, ids, parent)
    decreases |ids|
  {
    if j < |ids| - 1 {
      ForestIdsCover(nodes, ids[..|ids| - 1], parent, j);
    }
  }

  lemma {:induction false} ForestIdsMember(nodes: seq<MenuNode>, ids: seq<NodeId>, parent: NodeId, x: NodeId)
    requires WellFormed(nodes) && forall i :: 0 <= i < |ids| ==> parent < ids[i] < |nodes|
    requires x in ForestIds(nodes, ids, parent)
    ensures exists j :: 0 <= j < |ids| && x in TreeIds(nodes, ids[j])
    decreases |ids|
  {
    if x !in TreeIds(nodes, ids[|ids| - 1]) {
      ForestIdsMember(nodes, ids[..|ids| - 1], parent, x);
      var j :| 0 <= j < |ids| - 1 && x in TreeIds(nodes, ids[..|ids| - 1][j]);
      assert ids[..|ids| - 1][j] == ids[j];
    }
  }

  /** A subtree contains the subtrees of all its nodes. */
  lemma {:induction false} TreeIdsTransitive(nodes: seq<MenuNode>, a: NodeId, b: NodeId)
    requires WellFormed(nodes) && a < |nodes| && b in TreeIds(nodes, a)
    ensures b < |nodes| && TreeIds(nodes, b) <= TreeIds(nodes, a)
    decreases |nodes| - a
  {
    if b != a {
      var c := nodes[a].children;
      ForestIdsMember(nodes, c, a, b);
      var j :| 0 <= j < |c| && b in TreeIds(nodes, c[j]);
      TreeIdsTransitive(nodes, c[j], b);
      ForestIdsCover(nodes, c, a, j);
    }
  }

  lemma TreeIdsBounded(nodes: seq<MenuNode>, a: NodeId)
    requires WellFormed(nodes) && a < |nodes|
    ensures forall b :: b in TreeIds(nodes, a) ==> b < |nodes|
  {
    forall b | b in TreeIds(nodes, a) ensures b < |nodes| {
      TreeIdsTransitive(nodes, a, b);
    }
  }

  /** In a well-formed arena where every non-root node is some earlier node's child, every node is in the root's tree. */
  lemma {:induction false} HangingNodesReachable(nodes: seq<MenuNode>, k: NodeId)
    requires WellFormed(nodes) && |nodes| > 0
    requires forall x :: 0 < x < |nodes| ==> HasParent(nodes, 0, x)
    requires k < |nodes|
    ensures k in TreeIds(nodes, ROOT)
    decreases k
  {
    if k > 0 {
      assert HasParent(nodes, 0, k);
      var p :| 0 <= p < k && p < |nodes| && k in nodes[p].children;
      HangingNodesReachable(nodes, p);
      var j :| 0 <= j < |nodes[p].children| && nodes[p].children[j] == k;
      ForestIdsCover(nodes, nodes[p].children, p, j);
      TreeIdsTransitive(nodes, ROOT, p);
    }
  }

  /** When every node hangs below the root, the root's tree holds every node, and so every indexed node. */
  lemma RootReachesAll(nodes: seq<MenuNode>, enabledIndex: map<string, seq<NodeId>>,
                       stateIndex: map<string, seq<(NodeId, Option<Value>)>>)
    requires WellFormed(nodes) && |nodes| > 0 && Attached(nodes, ROOT, [ROOT])
    requires EnabledIndexSound(nodes, enabledIndex) && StateIndexSound(nodes, stateIndex)
    ensures forall k :: 0 <= k < |nodes| ==> k in TreeIds(nodes, ROOT)
    ensures forall a, j :: a in enabledIndex && 0 <= j < |enabledIndex[a]| ==> enabledIndex[a][j] in TreeIds(nodes, ROOT)
    ensures forall a, j :: a in stateIndex && 0 <= j < |stateIndex[a]| ==> stateIndex[a][j].0 in TreeIds(nodes, ROOT)
  {
    AllBelowRoot(nodes);
    forall a, j | a in enabledIndex && 0 <= j < |enabledIndex[a]|
      ensures enabledIndex[a][j] in TreeIds(nodes, ROOT)
    {
      assert enabledIndex[a][j] < |nodes|;
    }
    forall a, j | a in stateIndex && 0 <= j < |stateIndex[a]|
      ensures stateIndex[a][j].0 in TreeIds(nodes, ROOT)
    {
      assert stateIndex[a][j].0 < |nodes|;
    }
  }

  lemma AllBelowRoot(nodes: seq<MenuNode>)
    requires WellFormed(nodes) && |nodes| > 0 && Attached(nodes, ROOT, [ROOT])
    ensures forall k :: 0 <= k < |nodes| ==> k in TreeIds(nodes, ROOT)
  {
    assert forall x :: 0 < x < |nodes| ==> HasParent(nodes, 0, x);
    forall k | 0 <= k < |nodes|
      ensures k in TreeIds(nodes, ROOT)
    {
      HangingNodesReachable(nodes, k);
    }
  }

  /** The arena, both indexes and the displayed registry state agree with one another. */
  ghost predicate Consistent(nodes: seq<MenuNode>, enabledIndex: map<string, seq<NodeId>>,
                             stateIndex: map<string, seq<(NodeId, Option<Value>)>>, registry: ActionGroup) {
    && WellFormed(nodes)
    && EnabledIndexSound(nodes, enabledIndex)
    && EnabledIndexComplete(nodes, enabledIndex)
    && StateIndexSound(nodes, stateIndex)
    && StateIndexComplete(nodes, stateIndex)
    && Synced(nodes, registry)
  }

  /** A childless node whose binding properties match the registry. */
  ghost predicate FreshNodeSynced(n: MenuNode, registry: ActionGroup) {
    && n.children == []
    && (n.activation.Some? ==> ENABLED in n.props && n.props[ENABLED] == PBool(registry.Enabled(n.activation.value.action)))
    && (IsToggle(n) ==>
          TOGGLE_STATE in n.props
          && n.props[TOGGLE_STATE] == PInt(ToggleState(ExpectedOf(n.props, n.activation.value), registry.State(n.activation.value.action))))
  }

  /** The index entries that creating node `k` as `n` adds: one per index it belongs to. */
  function IndexEnabled(index: map<string, seq<NodeId>>, n: MenuNode, k: NodeId): map<string, seq<NodeId>> {
    if n.activation.Some? then AppendTo(index, n.activation.value.action, k) else index
  }

  function IndexState(index: map<string, seq<(NodeId, Option<Value>)>>, n: MenuNode, k: NodeId): map<string, seq<(NodeId, Option<Value>)>> {
    if IsToggle(n) then AppendTo(index, n.activation.value.action, (k, ExpectedOf(n.props, n.activation.value))) else index
  }

  /** Creating a node and indexing it keeps the arena, the indexes and the registry consistent. */
  lemma PushConsistent(nodes: seq<MenuNode>, enabledIndex: map<string, seq<NodeId>>,
                       stateIndex: map<string, seq<(NodeId, Option<Value>)>>, registry: ActionGroup, n: MenuNode)
    requires Consistent(nodes, enabledIndex, stateIndex, registry) && FreshNodeSynced(n, registry)
    ensures Consistent(nodes + [n], IndexEnabled(enabledIndex, n, |nodes|), IndexState(stateIndex, n, |nodes|), registry)
  {
    PushEnabled(nodes, enabledIndex, n);
    PushState(nodes, stateIndex, n);
    PushSynced(nodes, registry, n);
  }

  lemma PushEnabled(nodes: seq<MenuNode>, index: map<string, seq<NodeId>>, n: MenuNode)
    requires EnabledIndexSound(nodes, index) && EnabledIndexComplete(nodes, index)
    ensures EnabledIndexSound(nodes + [n], IndexEnabled(index, n, |nodes|))
    ensures EnabledIndexComplete(nodes + [n], IndexEnabled(index, n, |nodes|))
  {
    var after := nodes + [n];
    var e := IndexEnabled(index, n, |nodes|);
    forall x | 0 <= x < |after| && after[x].activation.Some?
      ensures after[x].activation.value.action in e && x in e[after[x].activation.value.action]
    {
      if x < |nodes| {
        assert after[x] == nodes[x];
      }
    }
  }

  lemma PushState(nodes: seq<MenuNode>, index: map<string, seq<(NodeId, Option<Value>)>>, n: MenuNode)
    requires StateIndexSound(nodes, index) && StateIndexComplete(nodes, index)
    ensures StateIndexSound(nodes + [n], IndexState(index, n, |nodes|))
    ensures StateIndexComplete(nodes + [n], IndexState(index, n, |nodes|))
  {
    var after := nodes + [n];
    var k := |nodes|;
    var st: map<string, seq<(NodeId, Option<Value>)>> := IndexState(index, n, k);
    forall a, j | a in st && 0 <= j < |st[a]|
      ensures st[a][j].0 < |after| && IsToggle(after[st[a][j].0])
      ensures after[st[a][j].0].activation.value.action == a
      ensures st[a][j].1 == ExpectedOf(after[st[a][j].0].props, after[st[a][j].0].activation.value)
    {
      if IsToggle(n) && a == n.activation.value.action && j == |st[a]| - 1 {
      } else {
        assert st[a][j] == index[a][j];
        assert after[index[a][j].0] == nodes[index[a][j].0];
      }
    }
    forall x | 0 <= x < |after| && IsToggle(after[x])
      ensures after[x].activation.value.action in st && InStateList(st[after[x].activation.value.action], x)
    {
      var a := after[x].activation.value.action;
      if x < k {
        assert after[x] == nodes[x];
        var j :| 0 <= j < |index[a]| && index[a][j].0 == x;
        assert st[a][j] == index[a][j];
      } else {
        assert st[a][|st[a]| - 1].0 == x;
      }
    }
  }

  lemma PushSynced(nodes: seq<MenuNode>, registry: ActionGroup, n: MenuNode)
    requires WellFormed(nodes) && Synced(nodes, registry) && FreshNodeSynced(n, registry)
    ensures WellFormed(nodes + [n]) && Synced(nodes + [n], registry)
  {
    var after := nodes + [n];
    forall k, j | 0 <= k < |after| && 0 <= j < |after[k].children|
      ensures k < after[k].children[j] < |after|
    {
      assert k < |nodes|;
      assert after[k] == nodes[k];
    }
  }

  /** Giving node `k` its children, and `children-display` when there are some, keeps consistency. */
  lemma SetChildrenConsistent(nodes: seq<MenuNode>, enabledIndex: map<string, seq<NodeId>>,
                              stateIndex: map<string, seq<(NodeId, Option<Value>)>>, registry: ActionGroup,
                              k: NodeId, children: seq<NodeId>, props: map<string, Prop>)
    requires Consistent(nodes, enabledIndex, stateIndex, registry)
    requires k < |nodes| && forall j :: 0 <= j < |children| ==> k < children[j] < |nodes|
    requires props == nodes[k].props || props == nodes[k].props[CHILDREN_DISPLAY := PStr(SUBMENU)]
    ensures Consistent(nodes[k := MenuNode(props, children, nodes[k].activation)], enabledIndex, stateIndex, registry)
  {
    var n := nodes[k];
    var after := nodes[k := MenuNode(props, children, n.activation)];
    assert IsToggle(after[k]) == IsToggle(n);
    assert n.activation.Some? && IsToggle(n) ==> ExpectedOf(props, n.activation.value) == ExpectedOf(n.props, n.activation.value);
    forall x | 0 <= x < |after| && IsToggle(after[x])
      ensures after[x].activation.value.action in stateIndex && InStateList(stateIndex[after[x].activation.value.action], x)
    {
      assert IsToggle(nodes[x]);
    }
  }

  /** Appending `more`, built after `emitted`, to the yielded nodes. */
  lemma ExtendEmitted(before: seq<MenuNode>, after: seq<MenuNode>, lo: nat, emitted: seq<NodeId>, more: seq<NodeId>)
    requires WellFormed(before) && WellFormed(after) && before <= after && lo <= |before|
    requires forall j :: 0 <= j < |emitted| ==> lo <= emitted[j] < |before|
    requires forall j :: 0 <= j < |more| ==> |before| <= more[j] < |after|
    requires Attached(before, lo, emitted) && Attached(after, |before|, more)
    ensures forall j :: 0 <= j < |emitted + more| ==> lo <= (emitted + more)[j] < |after|
    ensures Forest(after, emitted + more) == Forest(before, emitted) + Forest(after, more)
    ensures Attached(after, lo, emitted + more)
  {
    ForestExtend(before, after, emitted, more);
    AttachedExtend(before, after, lo, emitted, more);
  }

  /** Node `n` forwards activations to action `name`. */
  predicate BoundTo(n: MenuNode, name: string) {
    n.activation.Some? && n.activation.value.action == name
  }

  /** The arena after `enabled` is set on every node bound to `name`. */
  ghost function PatchEnabled(nodes: seq<MenuNode>, name: string, enabled: bool): (r: seq<MenuNode>)
    ensures |r| == |nodes|
  {
    seq(|nodes|, k requires 0 <= k < |nodes| =>
      if BoundTo(nodes[k], name) then SetProp(nodes[k], ENABLED, PBool(enabled)) else nodes[k])
  }

  /** Setting `enabled` on exactly the nodes the enabled index lists under `name` is the enabled patch. */
  lemma EnabledListPatched(start: seq<MenuNode>, enabledIndex: map<string, seq<NodeId>>,
                           name: string, enabled: bool, nodes: seq<MenuNode>)
    requires EnabledIndexSound(start, enabledIndex) && EnabledIndexComplete(start, enabledIndex)
    requires |nodes| == |start|
    requires forall k :: 0 <= k < |nodes| ==>
      nodes[k] == if k in Lookup(enabledIndex, name) then SetProp(start[k], ENABLED, PBool(enabled)) else start[k]
    ensures nodes == PatchEnabled(start, name, enabled)
  {
    forall k | 0 <= k < |nodes|
      ensures nodes[k] == PatchEnabled(start, name, enabled)[k]
    {
      if k in Lookup(enabledIndex, name) {
        var x :| 0 <= x < |enabledIndex[name]| && enabledIndex[name][x] == k;
      }
    }
  }

  /** Toggle node `n` after its action's state became `value`: on iff `value` is its expected value. */
  function Toggled(n: MenuNode, value: Value): MenuNode
    requires n.activation.Some?
  {
    SetProp(n, TOGGLE_STATE, PInt(ToggleState(ExpectedOf(n.props, n.activation.value), Some(value))))
  }

  /** The arena after the state of `name` became `value`. */
  ghost function PatchState(nodes: seq<MenuNode>, name: string, value: Value): (r: seq<MenuNode>)
    ensures |r| == |nodes|
  {
    seq(|nodes|, k requires 0 <= k < |nodes| =>
      if IsToggle(nodes[k]) && BoundTo(nodes[k], name) then Toggled(nodes[k], value) else nodes[k])
  }

  lemma InStateListSnoc(l: seq<(NodeId, Option<Value>)>, j: nat, x: NodeId)
    requires j < |l|
    ensures InStateList(l[..j + 1], x) <==> InStateList(l[..j], x) || l[j].0 == x
  {
    if InStateList(l[..j + 1], x) && l[j].0 != x {
      var y :| 0 <= y < j + 1 && l[..j + 1][y].0 == x;
      assert l[..j][y].0 == x;
    }
    if l[j].0 == x {
      assert l[..j + 1][j].0 == x;
    }
    if InStateList(l[..j], x) {
      var y :| 0 <= y < j && l[..j][y].0 == x;
      assert l[..j + 1][y].0 == x;
    }
  }

  /** Toggling exactly the nodes the state index lists under `name` is the state patch. */
  lemma StateListPatched(start: seq<MenuNode>, stateIndex: map<string, seq<(NodeId, Option<Value>)>>,
                         name: string, value: Value, nodes: seq<MenuNode>)
    requires StateIndexSound(start, stateIndex) && StateIndexComplete(start, stateIndex)
    requires |nodes| == |start|
    requires forall k :: 0 <= k < |nodes| ==>
      nodes[k] == if InStateList(Lookup(stateIndex, name), k) && start[k].activation.Some? then Toggled(start[k], value) else start[k]
    ensures nodes == PatchState(start, name, value)
  {
    var entries := Lookup(stateIndex, name);
    forall k | 0 <= k < |nodes|
      ensures nodes[k] == PatchState(start, name, value)[k]
    {
      if InStateList(entries, k) {
        var x :| 0 <= x < |entries| && entries[x].0 == k;
        assert IsToggle(start[k]) && BoundTo(start[k], name);
      }
    }
  }

  /** Patching the nodes of `name` with the new enabled flag keeps them in step with the group that reported it. */
  lemma PatchEnabledConsistent(nodes: seq<MenuNode>, enabledIndex: map<string, seq<NodeId>>,
                               stateIndex: map<string, seq<(NodeId, Option<Value>)>>, registry: ActionGroup,
                               name: string, enabled: bool)
    requires Consistent(nodes, enabledIndex, stateIndex, registry)
    ensures Consistent(PatchEnabled(nodes, name, enabled), enabledIndex, stateIndex, registry.WithEnabled(name, enabled))
  {
    var after := PatchEnabled(nodes, name, enabled);
    var g := registry.WithEnabled(name, enabled);
    forall k | 0 <= k < |nodes|
      ensures after[k].children == nodes[k].children && after[k].activation == nodes[k].activation
      ensures IsToggle(after[k]) == IsToggle(nodes[k])
      ensures TOGGLE_TYPE in nodes[k].props ==> after[k].props[TOGGLE_TYPE] == nodes[k].props[TOGGLE_TYPE]
      ensures TOGGLE_STATE in nodes[k].props ==> TOGGLE_STATE in after[k].props && after[k].props[TOGGLE_STATE] == nodes[k].props[TOGGLE_STATE]
    {
    }
    assert WellFormed(after);
    assert StateIndexComplete(after, stateIndex) by {
      forall k | 0 <= k < |after| && IsToggle(after[k])
        ensures after[k].activation.value.action in stateIndex && InStateList(stateIndex[after[k].activation.value.action], k)
      {
        assert IsToggle(nodes[k]);
      }
    }
  }

  /** Patching the toggle nodes of `name` with the new state keeps them in step with the group that reported it. */
  lemma PatchStateConsistent(nodes: seq<MenuNode>, enabledIndex: map<string, seq<NodeId>>,
                             stateIndex: map<string, seq<(NodeId, Option<Value>)>>, registry: ActionGroup,
                             name: string, value: Value)
    requires Consistent(nodes, enabledIndex, stateIndex, registry)
    ensures Consistent(PatchState(nodes, name, value), enabledIndex, stateIndex, registry.WithState(name, value))
  {
    var after := PatchState(nodes, name, value);
    var g := registry.WithState(name, value);
    forall k | 0 <= k < |nodes|
      ensures after[k].children == nodes[k].children && after[k].activation == nodes[k].activation
      ensures IsToggle(after[k]) == IsToggle(nodes[k])
      ensures TOGGLE_TYPE in nodes[k].props ==> after[k].props[TOGGLE_TYPE] == nodes[k].props[TOGGLE_TYPE]
      ensures ENABLED in nodes[k].props ==> ENABLED in after[k].props && after[k].props[ENABLED] == nodes[k].props[ENABLED]
    {
    }
    assert WellFormed(after);
    assert StateIndexComplete(after, stateIndex) by {
      forall k | 0 <= k < |after| && IsToggle(after[k])
        ensures after[k].activation.value.action in stateIndex && InStateList(stateIndex[after[k].activation.value.action], k)
      {
        assert IsToggle(nodes[k]);
      }
    }
  }

  /**
   * Neither patch changes the tree's shape or any node's binding: every
   * node keeps its children and its activation, and a node not bound to
   * `name` is left as it was.
   */
  lemma PatchesKeepShape(nodes: seq<MenuNode>, name: string, enabled: bool, value: Value)
    ensures forall k :: 0 <= k < |nodes| ==>
      && PatchEnabled(nodes, name, enabled)[k].children == nodes[k].children
      && PatchEnabled(nodes, name, enabled)[k].activation == nodes[k].activation
      && PatchState(nodes, name, value)[k].children == nodes[k].children
      && PatchState(nodes, name, value)[k].activation == nodes[k].activation
    ensures forall k :: 0 <= k < |nodes| && !BoundTo(nodes[k], name) ==>
      PatchEnabled(nodes, name, enabled)[k] == nodes[k] && PatchState(nodes, name, value)[k] == nodes[k]
  {
  }

  /** `__build_dbus_menu_item`'s attribute loop, visiting the attributes in any order. */
  method IterateAttributes(attrs: map<string, Value>, theme: IconTheme) returns (r: Result<ItemAttributes, ProjectionError>)
    ensures r == ReadAttributes(attrs, theme)
  {
    var labelText: Option<string> := None;
    var iconName: Option<string> := None;
    var action: Option<string> := None;
    var target: Option<Value> := None;
    var pending := attrs.Keys;
    while pending != {}
      invariant pending <= attrs.Keys
      invariant labelText == if LABEL !in pending then LabelOf(attrs) else None
      invariant iconName == if ICON !in pending then IconNameOf(attrs, theme) else None
      invariant action == if ACTION !in pending then ActionOf(attrs) else None
      invariant target == if TARGET !in pending then TargetOf(attrs) else None
      invariant ICON in attrs && ICON !in pending ==> ThemedNames(attrs[ICON]).Some?
      decreases pending
    {
      var name :| name in pending;
      var value := attrs[name];
      pending := pending - {name};
      if name == TARGET {
        target := Some(value);
      } else if name == ACTION {
        action := if value.Str? then Some(value.s) else None;
      } else if name == LABEL {
        if value.Str? {
          labelText := Some(value.s);
        }
      } else if name == ICON {
        var icon := Deserialize(value);
        if icon.None? || !icon.value.ThemedIcon? {
          return Err(UnsupportedIcon(value));
        }
        if theme.HasIcon(icon.value.names) {
          iconName := Some(theme.LookupName(icon.value.names));
        }
      }
    }
    return Ok(ItemAttributes(labelText, iconName, action, target));
  }

  /**
   * The binding part of `__build_dbus_menu_item`: `enabled` from the group
   * and, for an action with a string or boolean state, `toggle-type` and
   * `toggle-state`; `expected` is the value the state index records.
   */
  method BindItem(a: ItemAttributes, group: ActionGroup) returns (item: MenuNode, expected: Option<Value>)
    ensures item == MenuNode(ItemProps(a, group), [], ItemActivation(a))
    ensures FreshNodeSynced(item, group)
    ensures IsToggle(item) ==> expected == ExpectedOf(item.props, item.activation.value)
  {
    var props := AttributeProps(a);
    var activation: Option<Activation> := None;
    expected := None;
    if a.action.Some? {
      var action := a.action.value;
      activation := Some(Activation(action, a.target));
      props := props[ENABLED := PBool(group.Enabled(action))];
      var stateType := group.StateType(action);
      if VariantTypeEqual(stateType, Some(STRING_TYPE)) || VariantTypeEqual(stateType, Some(BOOL_TYPE)) {
        var isString := VariantTypeEqual(stateType, Some(STRING_TYPE));
        expected := if isString then a.target else Some(Bool(true));
        var current := group.State(action);
        props := props[TOGGLE_TYPE := PStr(if isString then RADIO else CHECKMARK)];
        props := props[TOGGLE_STATE := PInt(if expected == current then ON else OFF)];
      }
    }
    item := MenuNode(props, [], activation);
  }

  class DBusMenuProxy {
    /** The menu model the tree mirrors; its content is replaced when it reports a change. */
    var rootMenu: MenuModel
    const theme: IconTheme
    /** The node arena; node 0 is the root node the dbusmenu server publishes. */
    var nodes: seq<MenuNode>
    /** `__action_enabled_items`. */
    var enabledIndex: map<string, seq<NodeId>>
    /** `__action_state_items`: each toggle node with the value that turns it on. */
    var stateIndex: map<string, seq<(NodeId, Option<Value>)>>
    /** The models whose `items-changed` signal is connected, in connection order (`__items_changed_handlers`). */
    var subscriptions: seq<ModelId>
    /** The action group state that the tree currently displays. */
    ghost var registry: ActionGroup

    ghost predicate Valid()
      reads this
    {
      && |nodes| > 0
      && Consistent(nodes, enabledIndex, stateIndex, registry)
      && NoDuplicates(subscriptions)
    }

    ghost function Subscribed(): set<ModelId>
      reads this
    {
      set id | id in subscriptions
    }

    constructor Init(root: MenuModel, theme: IconTheme)
      ensures Valid() && rootMenu == root && this.theme == theme
      ensures nodes == [MenuNode(map[], [], None)] && enabledIndex == map[] && stateIndex == map[] && subscriptions == []
    {
      rootMenu := root;
      this.theme := theme;
      nodes := [MenuNode(map[], [], None)];
      enabledIndex := map[];
      stateIndex := map[];
      subscriptions := [];
      registry := ActionGroup(map[]);
    }

    /** Creates node `item` and indexes it: under its action in the enabled index and, for a toggle, in the state index. */
    method AddNode(item: MenuNode, expected: Option<Value>) returns (k: NodeId)
      requires Valid() && FreshNodeSynced(item, registry)
      requires IsToggle(item) ==> expected == ExpectedOf(item.props, item.activation.value)
      modifies this`nodes, this`enabledIndex, this`stateIndex
      ensures Valid() && k == old(|nodes|) && nodes == old(nodes) + [item]
      ensures enabledIndex == IndexEnabled(old(enabledIndex), item, k)
      ensures stateIndex == IndexState(old(stateIndex), item, k)
    {
      k := |nodes|;
      PushConsistent(nodes, enabledIndex, stateIndex, registry, item);
      nodes := nodes + [item];
      if item.activation.Some? {
        enabledIndex := AppendTo(enabledIndex, item.activation.value.action, k);
        if TOGGLE_TYPE in item.props {
          stateIndex := AppendTo(stateIndex, item.activation.value.action, (k, expected));
        }
      }
    }

    /**
     * Appends the nodes `children` to node `k`, which has none, and gives it
     * the properties `props`: its own, or its own with `children-display`.
     */
    method SetChildren(k: NodeId, children: seq<NodeId>, props: map<string, Prop>)
      requires Valid() && k < |nodes| && nodes[k].children == []
      requires props == nodes[k].props || props == nodes[k].props[CHILDREN_DISPLAY := PStr(SUBMENU)]
      requires forall j :: 0 <= j < |children| ==> k < children[j] < |nodes|
      requires Attached(nodes, k + 1, children)
      modifies this`nodes
      ensures Valid()
      ensures nodes == old(nodes)[k := MenuNode(props, children, old(nodes[k].activation))]
      ensures TreeAt(nodes, k) == Tree(props, old(nodes[k].activation), Forest(old(nodes), children))
      ensures Attached(nodes, k, [k])
    {
      ghost var before := nodes;
      var n := nodes[k];
      SetChildrenConsistent(nodes, enabledIndex, stateIndex, registry, k, children, props);
      AttachChildren(nodes, k, children, MenuNode(props, children, n.activation));
      nodes := nodes[k := MenuNode(props, children, n.activation)];
      assert AgreeFrom(before, nodes, k + 1);
      forall j | 0 <= j < |children|
        ensures TreeAt(nodes, children[j]) == TreeAt(before, children[j])
      {
        TreeAtFrame(before, nodes, k + 1, children[j]);
      }
      assert TreeAt(nodes, k).children == Forest(before, children);
    }

    /**
     * `__build_dbus_menu_item` for position `i` of `m`: creates the node,
     * binds it to its action (both indexes) unless it is a section header,
     * and projects a submenu link into its children.
     */
    method BuildItem(m: MenuModel, i: nat, isHeader: bool, group: ActionGroup) returns (r: Result<NodeId, ProjectionError>)
      requires i < |m.items|
      requires Valid() && registry == group
      modifies this`nodes, this`enabledIndex, this`stateIndex, this`subscriptions
      decreases m, 0, 0
      ensures Valid() && old(nodes) <= nodes
      ensures r.Ok? <==> ProjectItem(m, i, isHeader, group, theme).Ok?
      ensures r.Ok? ==> r.value == old(|nodes|) < |nodes| && TreeAt(nodes, r.value) == ProjectItem(m, i, isHeader, group, theme).value
      ensures r.Ok? ==> Attached(nodes, old(|nodes|), [r.value])
      ensures r.Ok? ==> Subscribed() == old(Subscribed()) + if !isHeader && m.items[i].submenu.Some? then ReachableIds(m.items[i].submenu.value) else {}
    {
      var pos := m.items[i];
      var read := IterateAttributes(pos.attrs, theme);
      if read.Err? {
        return Err(read.error);
      }
      var a := read.value;
      if isHeader {
        var k := AddNode(MenuNode(HeaderProps(a), [], None), None);
        return Ok(k);
      }
      var item, expected := BindItem(a, group);
      var k := AddNode(item, expected);
      if pos.submenu.Some? {
        var children := BuildItems(pos.submenu.value, group);
        if children.Err? {
          return Err(children.error);
        }
        SetChildren(k, children.value, WithChildrenDisplay(item.props, |children.value|));
      }
      return Ok(k);
    }

    /**
     * `__rebuild_menu`: empties both indexes, drops every subscription and
     * the root's children, and projects the root menu against the group's
     * current state; every node it creates hangs below the root.
     */
    method Rebuild(group: ActionGroup) returns (r: Result<(), ProjectionError>)
      modifies this`nodes, this`enabledIndex, this`stateIndex, this`subscriptions, this`registry
      ensures Valid() && registry == group && NoDuplicates(subscriptions)
      ensures r.Ok? <==> ProjectItems(rootMenu, group, theme).Ok?
      ensures r.Ok? ==> TreeAt(nodes, ROOT) == Tree(map[], None, ProjectItems(rootMenu, group, theme).value)
      ensures r.Ok? ==> forall k :: 0 <= k < |nodes| ==> k in TreeIds(nodes, ROOT)
      ensures r.Ok? ==> forall a, j :: a in enabledIndex && 0 <= j < |enabledIndex[a]| ==> enabledIndex[a][j] in TreeIds(nodes, ROOT)
      ensures r.Ok? ==> forall a, j :: a in stateIndex && 0 <= j < |stateIndex[a]| ==> stateIndex[a][j].0 in TreeIds(nodes, ROOT)
      ensures r.Ok? ==> Subscribed() == ReachableIds(rootMenu)
    {
      stateIndex := map[];
      enabledIndex := map[];
      subscriptions := [];
      nodes := [MenuNode(map[], [], None)];
      registry := group;
      var items := BuildItems(rootMenu, group);
      if items.Err? {
        return Err(items.error);
      }
      SetChildren(ROOT, items.value, map[]);
      RootReachesAll(nodes, enabledIndex, stateIndex);
      return Ok(());
    }

    /** The `items-changed` handler of a subscribed model: the root menu now reads `current`, and the menu is rebuilt. */
    method OnItemsChanged(current: MenuModel, group: ActionGroup) returns (r: Result<(), ProjectionError>)
      requires current.id == rootMenu.id
      modifies this`rootMenu, this`nodes, this`enabledIndex, this`stateIndex, this`subscriptions, this`registry
      ensures Valid() && rootMenu == current && registry == group
      ensures r.Ok? <==> ProjectItems(current, group, theme).Ok?
      ensures r.Ok? ==> TreeAt(nodes, ROOT) == Tree(map[], None, ProjectItems(current, group, theme).value)
      ensures r.Ok? ==> Subscribed() == ReachableIds(current)
    {
      rootMenu := current;
      r := Rebuild(group);
    }

    /** `__on_action_enabled_changed`: sets `enabled` on the nodes the enabled index lists under `name`. */
    method OnActionEnabledChanged(name: string, enabled: bool)
      requires Valid()
      modifies this`nodes, this`registry
      ensures Valid() && registry == old(registry).WithEnabled(name, enabled)
      ensures nodes == PatchEnabled(old(nodes), name, enabled)
      ensures name !in enabledIndex ==> nodes == old(nodes)
    {
      var items := Lookup(enabledIndex, name);
      ghost var start := nodes;
      assert forall x :: 0 <= x < |items| ==> items[x] < |start|;
      var j := 0;
      while j < |items|
        invariant 0 <= j <= |items| && |nodes| == |start| && registry == old(registry)
        invariant forall k :: 0 <= k < |nodes| ==>
          nodes[k] == if k in items[..j] then SetProp(start[k], ENABLED, PBool(enabled)) else start[k]
      {
        var k := items[j];
        nodes := nodes[k := SetProp(nodes[k], ENABLED, PBool(enabled))];
        assert items[..j + 1] == items[..j] + [k];
        j := j + 1;
      }
      assert items[..j] == items;
      EnabledListPatched(start, enabledIndex, name, enabled, nodes);
      PatchEnabledConsistent(start, enabledIndex, stateIndex, registry, name, enabled);
      registry := registry.WithEnabled(name, enabled);
    }

    /** `__on_action_state_changed`: sets `toggle-state` on the nodes the state index lists under `name`, on iff `value` is the recorded expected value. */
    method OnActionStateChanged(name: string, value: Value)
      requires Valid()
      modifies this`nodes, this`registry
      ensures Valid() && registry == old(registry).WithState(name, value)
      ensures nodes == PatchState(old(nodes), name, value)
      ensures name !in stateIndex ==> nodes == old(nodes)
    {
      var entries := Lookup(stateIndex, name);
      ghost var start := nodes;
      assert forall x :: 0 <= x < |entries| ==>
        entries[x].0 < |start| && start[entries[x].0].activation.Some?
        && entries[x].1 == ExpectedOf(start[entries[x].0].props, start[entries[x].0].activation.value);
      var j := 0;
      while j < |entries|
        invariant 0 <= j <= |entries| && |nodes| == |start| && registry == old(registry)
        invariant forall k :: 0 <= k < |nodes| ==>
          nodes[k] == if InStateList(entries[..j], k) && start[k].activation.Some? then Toggled(start[k], value) else start[k]
      {
        var (k, expected) := entries[j];
        nodes := nodes[k := SetProp(nodes[k], TOGGLE_STATE, PInt(if Some(value) == expected then ON else OFF))];
        forall x | 0 <= x < |nodes|
          ensures InStateList(entries[..j + 1], x) <==> InStateList(entries[..j], x) || x == k
        {
          InStateListSnoc(entries, j, x);
        }
        j := j + 1;
      }
      assert entries[..j] == entries;
      StateListPatched(start, stateIndex, name, value, nodes);
      PatchStateConsistent(start, enabledIndex, stateIndex, registry, name, value);
      registry := registry.WithState(name, value);
    }

    /** The `item-activated` handler of node `k`: the `activate_action` call it makes, exactly for the nodes the enabled index lists. */
    method ActivateItem(k: NodeId) returns (call: Option<Activation>)
      requires Valid() && k < |nodes|
      ensures call.Some? ==> k in Lookup(enabledIndex, call.value.action) && call.value == nodes[k].activation.value
      ensures call.None? ==> forall a :: k !in Lookup(enabledIndex, a)
    {
      call := nodes[k].activation;
    }

    /**
     * `__build_dbus_menu_items(m)`: subscribes to `m` once, then walks its
     * positions with the `at_first_item` / `at_section_end` flags, yielding
     * separators, section headers, inlined section contents and items.
     */
    method BuildItems(m: MenuModel, group: ActionGroup) returns (r: Result<seq<NodeId>, ProjectionError>)
      requires Valid() && registry == group
      modifies this`nodes, this`enabledIndex, this`stateIndex, this`subscriptions
      decreases m, 3, 0
      ensures Valid() && old(nodes) <= nodes
      ensures r.Ok? <==> ProjectItems(m, group, theme).Ok?
      ensures r.Ok? ==> (forall j :: 0 <= j < |r.value| ==> old(|nodes|) <= r.value[j] < |nodes|)
      ensures r.Ok? ==> Forest(nodes, r.value) == ProjectItems(m, group, theme).value
      ensures r.Ok? ==> Attached(nodes, old(|nodes|), r.value)
      ensures r.Ok? ==> Subscribed() == old(Subscribed()) + ReachableIds(m)
    {
      Subscribe(m.id);
      ghost var subscribed := Subscribed();
      var atFirstItem := true;
      var atSectionEnd := false;
      var emitted: seq<NodeId> := [];
      var i := 0;
      assert Forest(nodes, emitted) == [];
      while i < |m.items|
        invariant 0 <= i <= |m.items|
        invariant atFirstItem <==> i == 0
        invariant atSectionEnd <==> i > 0 && m.items[i - 1].section.Some?
        invariant Valid() && old(nodes) <= nodes
        invariant forall j :: 0 <= j < |emitted| ==> old(|nodes|) <= emitted[j] < |nodes|
        invariant ProjectUpTo(m, i, group, theme) == Ok(Forest(nodes, emitted))
        invariant Attached(nodes, old(|nodes|), emitted)
        invariant Subscribed() == subscribed + LinkedIds(m, i)
      {
        ghost var start := nodes;
        var more := BuildStep(m, i, atFirstItem, atSectionEnd, group);
        atSectionEnd := m.items[i].section.Some?;
        if more.Err? {
          StepErrPersists(m, i, group, theme);
          return Err(more.error);
        }
        ExtendEmitted(start, nodes, old(|nodes|), emitted, more.value);
        ProjectUpToNext(m, i, group, theme);
        emitted := emitted + more.value;
        atFirstItem := false;
        i := i + 1;
      }
      return Ok(emitted);
    }

    /** Connects to `items-changed` of model `id` unless it is already connected. */
    method Subscribe(id: ModelId)
      requires Valid()
      modifies this`subscriptions
      ensures Valid() && Subscribed() == old(Subscribed()) + {id}
      ensures old(subscriptions) <= subscriptions
    {
      if id !in subscriptions {
        subscriptions := subscriptions + [id];
      }
    }

    /** One turn of the loop of `__build_dbus_menu_items`, at position `i`. */
    method BuildStep(m: MenuModel, i: nat, atFirstItem: bool, atSectionEnd: bool, group: ActionGroup) returns (r: Result<seq<NodeId>, ProjectionError>)
      requires i < |m.items| && (atFirstItem <==> i == 0) && (atSectionEnd <==> i > 0 && m.items[i - 1].section.Some?)
      requires Valid() && registry == group
      modifies this`nodes, this`enabledIndex, this`stateIndex, this`subscriptions
      decreases m, 2, 1
      ensures Valid() && old(nodes) <= nodes
      ensures r.Ok? <==> Step(m, i, group, theme).Ok?
      ensures r.Ok? ==> (forall j :: 0 <= j < |r.value| ==> old(|nodes|) <= r.value[j] < |nodes|)
      ensures r.Ok? ==> Forest(nodes, r.value) == Step(m, i, group, theme).value
      ensures r.Ok? ==> Attached(nodes, old(|nodes|), r.value)
      ensures r.Ok? ==> Subscribed() == old(Subscribed()) + (if m.items[i].section.Some? then ReachableIds(m.items[i].section.value)
                                                              else if m.items[i].submenu.Some? then ReachableIds(m.items[i].submenu.value)
                                                              else {})
    {
      if m.items[i].section.Some? {
        r := BuildSection(m, i, atFirstItem, group);
      } else {
        r := BuildPlain(m, i, atSectionEnd, group);
      }
    }

    /** One turn of the loop of `__build_dbus_menu_items` at a section position: its head, then the inlined section. */
    method BuildSection(m: MenuModel, i: nat, atFirstItem: bool, group: ActionGroup) returns (r: Result<seq<NodeId>, ProjectionError>)
      requires i < |m.items| && m.items[i].section.Some? && (atFirstItem <==> i == 0)
      requires Valid() && registry == group
      modifies this`nodes, this`enabledIndex, this`stateIndex, this`subscriptions
      decreases m, 2, 0
      ensures Valid() && old(nodes) <= nodes
      ensures r.Ok? <==> Step(m, i, group, theme).Ok?
      ensures r.Ok? ==> (forall j :: 0 <= j < |r.value| ==> old(|nodes|) <= r.value[j] < |nodes|)
      ensures r.Ok? ==> Forest(nodes, r.value) == Step(m, i, group, theme).value
      ensures r.Ok? ==> Attached(nodes, old(|nodes|), r.value)
      ensures r.Ok? ==> Subscribed() == old(Subscribed()) + ReachableIds(m.items[i].section.value)
    {
      var head := BuildSectionHead(m, i, atFirstItem, group);
      if head.Err? {
        return Err(head.error);
      }
      ghost var start := nodes;
      var inner := BuildItems(m.items[i].section.value, group);
      if inner.Err? {
        return Err(inner.error);
      }
      ExtendEmitted(start, nodes, old(|nodes|), head.value, inner.value);
      return Ok(head.value + inner.value);
    }

    /** The separator that closes the previous position, and the header of a labelled section. */
    method BuildSectionHead(m: MenuModel, i: nat, atFirstItem: bool, group: ActionGroup) returns (r: Result<seq<NodeId>, ProjectionError>)
      requires i < |m.items| && (atFirstItem <==> i == 0)
      requires Valid() && registry == group
      modifies this`nodes, this`enabledIndex, this`stateIndex, this`subscriptions
      decreases m, 1, 0
      ensures Valid() && old(nodes) <= nodes
      ensures r.Ok? <==> SectionHead(m, i, group, theme).Ok?
      ensures r.Ok? ==> (forall j :: 0 <= j < |r.value| ==> old(|nodes|) <= r.value[j] < |nodes|)
      ensures r.Ok? ==> Forest(nodes, r.value) == SectionHead(m, i, group, theme).value
      ensures r.Ok? ==> Attached(nodes, old(|nodes|), r.value)
      ensures r.Ok? ==> Subscribed() == old(Subscribed())
    {
      var emitted: seq<NodeId> := [];
      assert Forest(nodes, emitted) == [];
      if !atFirstItem {
        ghost var start := nodes;
        var sep := BuildSeparator();
        ExtendEmitted(start, nodes, old(|nodes|), emitted, [sep]);
        emitted := emitted + [sep];
      }
      if LABEL in m.items[i].attrs {
        ghost var start := nodes;
        var header := BuildItem(m, i, true, group);
        if header.Err? {
          return Err(header.error);
        }
        ExtendEmitted(start, nodes, old(|nodes|), emitted, [header.value]);
        emitted := emitted + [header.value];
      }
      return Ok(emitted);
    }

    /** One turn of the loop of `__build_dbus_menu_items` at any other position: a separator after a section, then the item. */
    method BuildPlain(m: MenuModel, i: nat, atSectionEnd: bool, group: ActionGroup) returns (r: Result<seq<NodeId>, ProjectionError>)
      requires i < |m.items| && m.items[i].section.None? && (atSectionEnd <==> i > 0 && m.items[i - 1].section.Some?)
      requires Valid() && registry == group
      modifies this`nodes, this`enabledIndex, this`stateIndex, this`subscriptions
      decreases m, 2, 0
      ensures Valid() && old(nodes) <= nodes
      ensures r.Ok? <==> Step(m, i, group, theme).Ok?
      ensures r.Ok? ==> (forall j :: 0 <= j < |r.value| ==> old(|nodes|) <= r.value[j] < |nodes|)
      ensures r.Ok? ==> Forest(nodes, r.value) == Step(m, i, group, theme).value
      ensures r.Ok? ==> Attached(nodes, old(|nodes|), r.value)
      ensures r.Ok? ==> Subscribed() == old(Subscribed()) + if m.items[i].submenu.Some? then ReachableIds(m.items[i].submenu.value) else {}
    {
      var emitted: seq<NodeId> := [];
      ghost var trees: seq<Tree> := [];
      assert Forest(nodes, emitted) == [];
      if atSectionEnd {
        ghost var start := nodes;
        var sep := BuildSeparator();
        ExtendEmitted(start, nodes, old(|nodes|), emitted, [sep]);
        emitted := emitted + [sep];
        trees := [Separator()];
      }
      ghost var start := nodes;
      var item := BuildItem(m, i, false, group);
      if item.Err? {
        return Err(item.error);
      }
      ExtendEmitted(start, nodes, old(|nodes|), emitted, [item.value]);
      emitted := emitted + [item.value];
      trees := trees + [ProjectItem(m, i, false, group, theme).value];
      assert Step(m, i, group, theme) == Ok(trees);
      return Ok(emitted);
    }

    /** `__build_separator`. */
    method BuildSeparator() returns (k: NodeId)
      requires Valid()
      modifies this`nodes, this`enabledIndex, this`stateIndex
      ensures Valid() && old(nodes) <= nodes
      ensures k == old(|nodes|) && |nodes| == k + 1 && TreeAt(nodes, k) == Separator()
      ensures enabledIndex == old(enabledIndex) && stateIndex == old(stateIndex)
    {
      k := AddNode(MenuNode(map[TYPE := PStr(SEPARATOR)], [], None), None);
    }
  }

  /** `_DBusMenuProxy.__init__`: a proxy for `root` whose tree is projected against the group's current state. */
  method Open(root: MenuModel, group: ActionGroup, theme: IconTheme) returns (r: Result<DBusMenuProxy, ProjectionError>)
    ensures r.Ok? <==> ProjectItems(root, group, theme).Ok?
    ensures r.Ok? ==> fresh(r.value) && r.value.Valid() && r.value.rootMenu == root && r.value.registry == group
    ensures r.Ok? ==> TreeAt(r.value.nodes, ROOT) == Tree(map[], None, ProjectItems(root, group, theme).value)
    ensures r.Ok? ==> r.value.Subscribed() == ReachableIds(root)
  {
    var proxy := new DBusMenuProxy.Init(root, theme);
    var built := proxy.Rebuild(group);
    if built.Err? {
      return Err(built.error);
    }
    return Ok(proxy);
  }
}
