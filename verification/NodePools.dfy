/** Node pools, control plane and totals of internal/services/heartbeat.go. */
module NodePools {
  import opened Common
  import opened Text

  const LIMIT: int := 0x8000_0000_0000_0000

  predicate InInt64(x: int) {
    -LIMIT <= x < LIMIT
  }

  /** Go's int64 arithmetic wraps around. */
  function Wrap(x: int): (w: int)
    ensures InInt64(w)
  {
    (x + LIMIT) % (2 * LIMIT) - LIMIT
  }

  datatype Usage = Usage(cpu: int, memory: int, cpuConsumed: int, memoryConsumed: int) {
    predicate InRange() { InInt64(cpu) && InInt64(memory) && InInt64(cpuConsumed) && InInt64(memoryConsumed) }
  }

  /** Four int64 values. */
  type Figures = u: Usage | u.InRange() witness Usage(0, 0, 0, 0)

  const ZERO: Figures := Usage(0, 0, 0, 0)

  function Plus(a: Usage, b: Usage): Usage {
    Usage(a.cpu + b.cpu, a.memory + b.memory, a.cpuConsumed + b.cpuConsumed, a.memoryConsumed + b.memoryConsumed)
  }

  function Wrapped(a: Usage): Figures {
    Usage(Wrap(a.cpu), Wrap(a.memory), Wrap(a.cpuConsumed), Wrap(a.memoryConsumed))
  }

  datatype Provider = Talos | Aks | OtherProvider(name: string)

  /** `details` stands for the descriptive fields that are copied as they are. */
  datatype Node = Node(
    name: string, provider: Provider, clusterName: string, machineName: string,
    labels: map<string, string>, annotations: map<string, string>, details: string, usage: Figures)
  {
    predicate IsControlPlane() { CONTROL_PLANE_LABEL in labels }
  }

  const CONTROL_PLANE_LABEL := "node-role.kubernetes.io/control-plane"
  const POOL_ANNOTATION := "ror.io/node-pool"

  datatype ApiNode = ApiNode(name: string, role: string, machineName: string, details: string, usage: Figures)
  datatype Metrics = Metrics(nodeCount: int, usage: Figures)
  datatype NodePool = NodePool(name: string, nodes: seq<ApiNode>, metrics: Metrics)
  datatype ControlPlane = ControlPlane(nodes: seq<ApiNode>, metrics: Metrics)

  const NO_CONTROL_PLANE := ControlPlane([], Metrics(0, ZERO))

  function Reported(node: Node, role: string): ApiNode {
    ApiNode(node.name, role, node.machineName, node.details, node.usage)
  }

  /** The pool a worker belongs to; None where the Go code indexes past the end of the split name and panics. */
  function PoolName(node: Node): Option<string> {
    var parts := Split(node.machineName, '-');
    var i := if node.provider.Aks? then 1 else |Split(node.clusterName, '-')|;
    if node.provider.Talos? then Some(if POOL_ANNOTATION in node.annotations then node.annotations[POOL_ANNOTATION] else "")
    else if i < |parts| then Some(parts[i]) else None
  }

  /** The last pool with this name, or -1. */
  function LastNamed(pools: seq<NodePool>, name: string): (i: int)
    ensures -1 <= i < |pools|
    ensures i >= 0 ==> pools[i].name == name
    ensures forall j :: i < j < |pools| ==> pools[j].name != name
  {
    if pools == [] then -1
    else if pools[|pools| - 1].name == name then |pools| - 1
    else LastNamed(pools[..|pools| - 1], name)
  }

  function Grown(nodes: seq<ApiNode>, m: Metrics, node: ApiNode): Metrics {
    Metrics(Wrap(|nodes| + 1), Wrapped(Plus(m.usage, node.usage)))
  }

  function Placed(pools: seq<NodePool>, name: string, node: ApiNode): seq<NodePool> {
    var i := LastNamed(pools, name);
    if i < 0 then pools + [NodePool(name, [node], Metrics(1, node.usage))]
    else pools[i := NodePool(name, pools[i].nodes + [node], Grown(pools[i].nodes, pools[i].metrics, node))]
  }

  /** A worker as reported, with the pool it belongs to. */
  datatype Member = Member(pool: string, node: ApiNode)

  /** The workers with their pools, or None if one of them has no pool name. */
  function Members(workers: seq<Node>): Option<seq<Member>> {
    if workers == [] then Some([]) else
    var ms, worker := Members(workers[..|workers| - 1]), workers[|workers| - 1];
    if ms.None? || PoolName(worker).None? then None
    else Some(ms.value + [Member(PoolName(worker).value, Reported(worker, "worker"))])
  }

  function Grouped(ms: seq<Member>): seq<NodePool> {
    if ms == [] then [] else
    var last := ms[|ms| - 1];
    Placed(Grouped(ms[..|ms| - 1]), last.pool, last.node)
  }

  function Controlled(masters: seq<Node>): ControlPlane {
    if masters == [] then NO_CONTROL_PLANE else
    var cp, node := Controlled(masters[..|masters| - 1]), Reported(masters[|masters| - 1], "control-plane");
    ControlPlane(cp.nodes + [node], Grown(cp.nodes, cp.metrics, node))
  }

  function Masters(nodes: seq<Node>): seq<Node> {
    if nodes == [] then [] else
    Masters(nodes[..|nodes| - 1]) + if nodes[|nodes| - 1].IsControlPlane() then [nodes[|nodes| - 1]] else []
  }

  function Workers(nodes: seq<Node>): seq<Node> {
    if nodes == [] then [] else
    Workers(nodes[..|nodes| - 1]) + if nodes[|nodes| - 1].IsControlPlane() then [] else [nodes[|nodes| - 1]]
  }

  function TotalsOf(pools: seq<NodePool>): Metrics {
    if pools == [] then Metrics(0, ZERO) else
    var t, m := TotalsOf(pools[..|pools| - 1]), pools[|pools| - 1].metrics;
    Metrics(Wrap(t.nodeCount + m.nodeCount), Wrapped(Plus(t.usage, m.usage)))
  }

  class Topology {
    var nodePools: seq<NodePool>
    var controlPlane: ControlPlane

    constructor ()
      ensures nodePools == [] && controlPlane == NO_CONTROL_PLANE
    {
      nodePools, controlPlane := [], NO_CONTROL_PLANE;
    }

    method AppendNodeToControlePlane(node: Node)
      modifies this`controlPlane
      ensures var cp, n := old(controlPlane), Reported(node, "control-plane");
              controlPlane == ControlPlane(cp.nodes + [n], Grown(cp.nodes, cp.metrics, n))
    {
      var apiNode := Reported(node, "control-plane");
      var nodes := controlPlane.nodes + [apiNode];
      var usage := controlPlane.metrics.usage;
      usage := usage.(cpu := Wrap(usage.cpu + apiNode.usage.cpu));
      usage := usage.(memory := Wrap(usage.memory + apiNode.usage.memory));
      usage := usage.(cpuConsumed := Wrap(usage.cpuConsumed + apiNode.usage.cpuConsumed));
      usage := usage.(memoryConsumed := Wrap(usage.memoryConsumed + apiNode.usage.memoryConsumed));
      controlPlane := ControlPlane(nodes, Metrics(Wrap(|nodes|), usage));
    }

    /** `ok` is false where the Go code panics; nothing is changed then. */
    method AppendNodeToNodePools(node: Node) returns (ok: bool)
      modifies this`nodePools
      ensures ok <==> PoolName(node).Some?
      ensures nodePools ==
              if ok then Placed(old(nodePools), PoolName(node).value, Reported(node, "worker")) else old(nodePools)
    {
      var workerName := PoolName(node);
      if workerName.None? {
        return false;
      }
      var apiNode := Reported(node, "worker");
      var index := -1;
      for i := 0 to |nodePools|
        invariant -1 <= index < i
        invariant index >= 0 ==> nodePools[index].name == workerName.value
        invariant forall j :: index < j < i ==> nodePools[j].name != workerName.value
        invariant nodePools == old(nodePools)
      {
        if nodePools[i].name == workerName.value {
          index := i;
        }
      }
      if index < 0 {
        nodePools := nodePools + [NodePool(workerName.value, [apiNode], Metrics(1, apiNode.usage))];
      } else {
        var pool := nodePools[index];
        var nodelist := pool.nodes + [apiNode];
        var usage := Wrapped(Plus(pool.metrics.usage, apiNode.usage));
        nodePools := nodePools[index := pool.(nodes := nodelist, metrics := Metrics(Wrap(|nodelist|), usage))];
      }
      return true;
    }

    /** The loop of GetHeartbeatReport over the nodes. */
    method Build(nodes: seq<Node>) returns (ok: bool)
      requires nodePools == [] && controlPlane == NO_CONTROL_PLANE
      modifies this
      ensures ok <==> Members(Workers(nodes)).Some?
      ensures ok ==> nodePools == Grouped(Members(Workers(nodes)).value) && controlPlane == Controlled(Masters(nodes))
    {
      for i := 0 to |nodes|
        invariant Members(Workers(nodes[..i])).Some? && nodePools == Grouped(Members(Workers(nodes[..i])).value)
        invariant controlPlane == Controlled(Masters(nodes[..i]))
      {
        OneMoreNode(nodes, i);
        if nodes[i].IsControlPlane() {
          AppendNodeToControlePlane(nodes[i]);
        } else {
          var placed := AppendNodeToNodePools(nodes[i]);
          if !placed {
            UnnamedStops(nodes, i + 1);
            return false;
          }
        }
      }
      assert nodes[..|nodes|] == nodes;
      return true;
    }

    method Totals() returns (m: Metrics)
      ensures m == TotalsOf(nodePools)
    {
      m := Metrics(0, ZERO);
      for i := 0 to |nodePools|
        invariant m == TotalsOf(nodePools[..i])
      {
        assert nodePools[..i + 1][..i] == nodePools[..i];
        m := Metrics(Wrap(m.nodeCount + nodePools[i].metrics.nodeCount), Wrapped(Plus(m.usage, nodePools[i].metrics.usage)));
      }
      assert nodePools[..|nodePools|] == nodePools;
    }
  }

  lemma OneMoreNode(nodes: seq<Node>, i: nat)
    requires i < |nodes|
    ensures var node, before, after := nodes[i], Members(Workers(nodes[..i])), Members(Workers(nodes[..i + 1]));
            if node.IsControlPlane() then after == before
            else if before.None? || PoolName(node).None? then after.None?
            else after.Some? &&
                 Grouped(after.value) == Placed(Grouped(before.value), PoolName(node).value, Reported(node, "worker"))
    ensures var node, before, after := nodes[i], Controlled(Masters(nodes[..i])), Controlled(Masters(nodes[..i + 1]));
            var n := Reported(node, "control-plane");
            after == if node.IsControlPlane() then ControlPlane(before.nodes + [n], Grown(before.nodes, before.metrics, n))
                     else before
  {
    assert nodes[..i + 1][..i] == nodes[..i];
    var workers, masters := Workers(nodes[..i]), Masters(nodes[..i]);
    assert (workers + [nodes[i]])[..|workers|] == workers && workers + [] == workers;
    assert (masters + [nodes[i]])[..|masters|] == masters && masters + [] == masters;
    if Members(workers).Some? && PoolName(nodes[i]).Some? {
      var ms, m := Members(workers).value, Member(PoolName(nodes[i]).value, Reported(nodes[i], "worker"));
      assert (ms + [m])[..|ms|] == ms;
    }
  }

  /** A worker without a pool name stops the whole report. */
  lemma {:induction false} UnnamedStops(nodes: seq<Node>, i: nat)
    requires i <= |nodes| && Members(Workers(nodes[..i])).None?
    ensures Members(Workers(nodes)).None?
    decreases |nodes| - i
  {
    if i == |nodes| {
      assert nodes[..i] == nodes;
    } else {
      OneMoreNode(nodes, i);
      UnnamedStops(nodes, i + 1);
    }
  }

  // ---- Group-by ----

  /** Members lists every worker in input order, as reported and under its pool name. */
  lemma {:induction false} MembersAreWorkers(workers: seq<Node>)
    ensures Members(workers).Some? <==> forall i :: 0 <= i < |workers| ==> PoolName(workers[i]).Some?
    ensures Members(workers).Some? ==>
              var ms := Members(workers).value;
              |ms| == |workers| && forall i :: 0 <= i < |ms| ==>
                Some(ms[i].pool) == PoolName(workers[i]) && ms[i].node == Reported(workers[i], "worker")
  {
    if workers != [] {
      MembersAreWorkers(workers[..|workers| - 1]);
    }
  }

  /** The members of this pool, in input order. */
  function NodesNamed(ms: seq<Member>, name: string): seq<ApiNode> {
    if ms == [] then [] else
    NodesNamed(ms[..|ms| - 1], name) + if ms[|ms| - 1].pool == name then [ms[|ms| - 1].node] else []
  }

  /** The first member of this pool, or |ms|. */
  function FirstNamed(ms: seq<Member>, name: string): (i: nat)
    ensures i <= |ms|
    ensures i < |ms| ==> ms[i].pool == name
    ensures forall j :: 0 <= j < i ==> ms[j].pool != name
  {
    if ms == [] || ms[0].pool == name then 0 else 1 + FirstNamed(ms[1..], name)
  }

  function Sum(nodes: seq<ApiNode>): Usage {
    if nodes == [] then ZERO else Plus(Sum(nodes[..|nodes| - 1]), nodes[|nodes| - 1].usage)
  }

  ghost predicate Measured(nodes: seq<ApiNode>, m: Metrics) {
    m == Metrics(Wrap(|nodes|), Wrapped(Sum(nodes)))
  }

  ghost predicate InOrder(ms: seq<Member>, pools: seq<NodePool>) {
    && (forall i, j :: 0 <= i < j < |pools| ==> FirstNamed(ms, pools[i].name) < FirstNamed(ms, pools[j].name))
    && (forall i :: 0 <= i < |pools| ==> FirstNamed(ms, pools[i].name) < |ms|)
  }

  ghost predicate Complete(ms: seq<Member>, pools: seq<NodePool>) {
    forall w :: 0 <= w < |ms| ==> LastNamed(pools, ms[w].pool) >= 0
  }

  ghost predicate Exact(ms: seq<Member>, pools: seq<NodePool>) {
    forall i :: 0 <= i < |pools| ==> pools[i].nodes == NodesNamed(ms, pools[i].name)
  }

  ghost predicate AllMeasured(pools: seq<NodePool>) {
    forall i :: 0 <= i < |pools| ==> Measured(pools[i].nodes, pools[i].metrics)
  }

  /** Pools are a stable group-by of the workers: distinct names in the order of first appearance, one for each
      name in use, each with exactly its workers in input order. */
  ghost predicate IsGroupBy(ms: seq<Member>, pools: seq<NodePool>) {
    InOrder(ms, pools) && Complete(ms, pools) && Exact(ms, pools)
  }

  lemma WrapAdds(a: int, b: int)
    ensures Wrap(Wrap(a) + b) == Wrap(a + b)
    ensures Wrap(a) == a <==> InInt64(a)
  {
    var k := (a + LIMIT) / (2 * LIMIT);
    assert Wrap(a) == a - k * (2 * LIMIT);
    assert (a + b + LIMIT - k * (2 * LIMIT)) % (2 * LIMIT) == (a + b + LIMIT) % (2 * LIMIT);
  }

  lemma WrappedAdds(a: Usage, b: Usage)
    ensures Wrapped(Plus(Wrapped(a), b)) == Wrapped(Plus(a, b))
    ensures Wrapped(Plus(a, Wrapped(b))) == Wrapped(Plus(a, b))
  {
    WrapAdds(a.cpu, b.cpu);
    WrapAdds(a.memory, b.memory);
    WrapAdds(a.cpuConsumed, b.cpuConsumed);
    WrapAdds(a.memoryConsumed, b.memoryConsumed);
    WrapAdds(b.cpu, a.cpu);
    WrapAdds(b.memory, a.memory);
    WrapAdds(b.cpuConsumed, a.cpuConsumed);
    WrapAdds(b.memoryConsumed, a.memoryConsumed);
  }

  lemma MeasuredGrows(nodes: seq<ApiNode>, m: Metrics, node: ApiNode)
    requires Measured(nodes, m)
    ensures Measured(nodes + [node], Grown(nodes, m, node))
  {
    assert (nodes + [node])[..|nodes|] == nodes;
    WrappedAdds(Sum(nodes), node.usage);
  }

  lemma FirstNamedGrows(ms: seq<Member>, m: Member, name: string)
    ensures var i, i' := FirstNamed(ms, name), FirstNamed(ms + [m], name);
            i' == if i < |ms| || m.pool == name then i else |ms| + 1
    ensures NodesNamed(ms + [m], name) == NodesNamed(ms, name) + if m.pool == name then [m.node] else []
  {
    var all := ms + [m];
    assert all[..|ms|] == ms;
    assert all[|ms|] == m;
    assert forall j :: 0 <= j < |ms| ==> all[j] == ms[j];
    assert FirstNamed(ms, name) < |ms| ==> all[FirstNamed(ms, name)].pool == name;
  }

  lemma {:induction false} NobodyNamed(ms: seq<Member>, name: string)
    requires FirstNamed(ms, name) == |ms|
    ensures NodesNamed(ms, name) == []
  {
    if ms != [] {
      var n := |ms| - 1;
      assert ms[..n] + [ms[n]] == ms;
      FirstNamedGrows(ms[..n], ms[n], name);
      NobodyNamed(ms[..n], name);
    }
  }

  lemma PlacedNames(pools: seq<NodePool>, name: string, node: ApiNode)
    ensures var pools', at := Placed(pools, name, node), LastNamed(pools, name);
            && |pools'| == |pools| + (if at < 0 then 1 else 0)
            && (forall i :: 0 <= i < |pools| ==> pools'[i].name == pools[i].name)
            && (at < 0 ==> pools'[|pools|].name == name)
            && (forall p :: LastNamed(pools', p) >= 0 <==> LastNamed(pools, p) >= 0 || p == name)
  {
    var pools', at := Placed(pools, name, node), LastNamed(pools, name);
    forall p
      ensures LastNamed(pools', p) >= 0 <==> LastNamed(pools, p) >= 0 || p == name
    {
      var i := LastNamed(pools, p);
      if i >= 0 {
        assert pools'[i].name == p;
      }
      if p == name {
        assert pools'[if at < 0 then |pools| else at].name == p;
      }
    }
  }

  lemma PlacedInOrder(ms: seq<Member>, pools: seq<NodePool>, m: Member)
    requires InOrder(ms, pools) && Complete(ms, pools)
    ensures InOrder(ms + [m], Placed(pools, m.pool, m.node))
  {
    var all, pools', at := ms + [m], Placed(pools, m.pool, m.node), LastNamed(pools, m.pool);
    PlacedNames(pools, m.pool, m.node);
    FirstNamedGrows(ms, m, m.pool);
    forall i | 0 <= i < |pools|
      ensures FirstNamed(all, pools'[i].name) == FirstNamed(ms, pools[i].name) < |ms|
    {
      FirstNamedGrows(ms, m, pools[i].name);
    }
    assert at < 0 ==> FirstNamed(all, m.pool) == |ms|;
  }

  lemma PlacedExact(ms: seq<Member>, pools: seq<NodePool>, m: Member)
    requires InOrder(ms, pools) && Complete(ms, pools) && Exact(ms, pools)
    ensures Exact(ms + [m], Placed(pools, m.pool, m.node))
  {
    var pools', at := Placed(pools, m.pool, m.node), LastNamed(pools, m.pool);
    FirstNamedGrows(ms, m, m.pool);
    if at < 0 {
      assert FirstNamed(ms, m.pool) == |ms|;
      NobodyNamed(ms, m.pool);
    }
    forall i | 0 <= i < |pools|
      ensures pools'[i].nodes == NodesNamed(ms + [m], pools'[i].name)
    {
      FirstNamedGrows(ms, m, pools[i].name);
      assert pools[i].name == m.pool ==> i == at;
    }
  }

  lemma PlacedGroups(ms: seq<Member>, pools: seq<NodePool>, m: Member)
    requires IsGroupBy(ms, pools)
    ensures IsGroupBy(ms + [m], Placed(pools, m.pool, m.node))
  {
    hide InOrder, Exact, Placed;
    PlacedInOrder(ms, pools, m);
    PlacedExact(ms, pools, m);
    PlacedNames(pools, m.pool, m.node);
    var all, pools' := ms + [m], Placed(pools, m.pool, m.node);
    forall w | 0 <= w < |all|
      ensures LastNamed(pools', all[w].pool) >= 0
    {
      assert w < |ms| ==> all[w] == ms[w];
    }
  }

  lemma NothingIsGrouped()
    ensures IsGroupBy([], [])
  {
  }

  /** The worker fold is a stable group-by. */
  lemma {:induction false} WorkersAreGrouped(ms: seq<Member>)
    ensures IsGroupBy(ms, Grouped(ms))
  {
    hide IsGroupBy, Placed;
    if ms == [] {
      NothingIsGrouped();
    } else {
      var n := |ms| - 1;
      WorkersAreGrouped(ms[..n]);
      PlacedGroups(ms[..n], Grouped(ms[..n]), ms[n]);
      assert ms[..n] + [ms[n]] == ms;
    }
  }

  /** And every pool's figures are the sums over its own nodes. */
  lemma {:induction false} PoolsAreMeasured(ms: seq<Member>)
    ensures AllMeasured(Grouped(ms))
  {
    if ms != [] {
      PoolsAreMeasured(ms[..|ms| - 1]);
      PlacedMeasured(Grouped(ms[..|ms| - 1]), ms[|ms| - 1]);
    }
  }

  lemma FirstIsMeasured(node: ApiNode)
    ensures Measured([], Metrics(0, ZERO)) && Measured([node], Metrics(1, node.usage))
  {
    InRangeUnwrapped(node.usage);
    assert [node][..0] == [];
    assert Sum([node]) == Plus(Sum([]), node.usage) == node.usage;
  }

  lemma PlacedMeasured(pools: seq<NodePool>, m: Member)
    requires AllMeasured(pools)
    ensures AllMeasured(Placed(pools, m.pool, m.node))
  {
    hide Measured, Grown;
    var at := LastNamed(pools, m.pool);
    if at < 0 {
      FirstIsMeasured(m.node);
    } else {
      MeasuredGrows(pools[at].nodes, pools[at].metrics, m.node);
    }
  }

  // ---- Conservation ----

  /** One direct sum over nodes of the cluster. */
  function UsageOf(nodes: seq<Node>): Usage {
    if nodes == [] then ZERO else Plus(UsageOf(nodes[..|nodes| - 1]), nodes[|nodes| - 1].usage)
  }

  function MemberUsage(ms: seq<Member>): Usage {
    if ms == [] then ZERO else Plus(MemberUsage(ms[..|ms| - 1]), ms[|ms| - 1].node.usage)
  }

  lemma {:induction false} MembersUsage(workers: seq<Node>)
    requires Members(workers).Some?
    ensures MemberUsage(Members(workers).value) == UsageOf(workers) && |Members(workers).value| == |workers|
  {
    if workers != [] {
      var init := workers[..|workers| - 1];
      MembersUsage(init);
      assert Members(workers).value[..|Members(init).value|] == Members(init).value;
    }
  }

  /** The exact sums behind the pools' figures. */
  function PooledUsage(pools: seq<NodePool>): Usage {
    if pools == [] then ZERO else Plus(PooledUsage(pools[..|pools| - 1]), Sum(pools[|pools| - 1].nodes))
  }

  function PooledCount(pools: seq<NodePool>): nat {
    if pools == [] then 0 else PooledCount(pools[..|pools| - 1]) + |pools[|pools| - 1].nodes|
  }

  lemma {:induction false} ReplacedPool(pools: seq<NodePool>, i: nat, pool: NodePool, node: ApiNode)
    requires i < |pools| && pool.nodes == pools[i].nodes + [node]
    ensures PooledUsage(pools[i := pool]) == Plus(PooledUsage(pools), node.usage)
    ensures PooledCount(pools[i := pool]) == PooledCount(pools) + 1
  {
    var n := |pools| - 1;
    assert pool.nodes[..|pools[i].nodes|] == pools[i].nodes;
    if i < n {
      assert pools[i := pool][..n] == pools[..n][i := pool];
      ReplacedPool(pools[..n], i, pool, node);
    } else {
      assert pools[i := pool][..n] == pools[..n];
    }
  }

  lemma PlacedCounts(pools: seq<NodePool>, m: Member)
    ensures PooledUsage(Placed(pools, m.pool, m.node)) == Plus(PooledUsage(pools), m.node.usage)
    ensures PooledCount(Placed(pools, m.pool, m.node)) == PooledCount(pools) + 1
  {
    hide Grown;
    var pools', at := Placed(pools, m.pool, m.node), LastNamed(pools, m.pool);
    if at < 0 {
      assert pools'[..|pools|] == pools && [m.node][..0] == [];
      assert Sum([m.node]) == Plus(Sum([]), m.node.usage);
    } else {
      ReplacedPool(pools, at, pools'[at], m.node);
    }
  }

  lemma {:induction false} PooledIsAll(ms: seq<Member>)
    ensures PooledUsage(Grouped(ms)) == MemberUsage(ms)
    ensures PooledCount(Grouped(ms)) == |ms|
  {
    if ms != [] {
      hide Placed;
      PooledIsAll(ms[..|ms| - 1]);
      PlacedCounts(Grouped(ms[..|ms| - 1]), ms[|ms| - 1]);
    }
  }

  lemma {:induction false} TotalsArePooled(pools: seq<NodePool>)
    requires AllMeasured(pools)
    ensures TotalsOf(pools) == Metrics(Wrap(PooledCount(pools)), Wrapped(PooledUsage(pools)))
  {
    if pools != [] {
      var n := |pools| - 1;
      TotalsArePooled(pools[..n]);
      var count, size := PooledCount(pools[..n]), |pools[n].nodes|;
      WrapAdds(count, Wrap(size));
      WrapAdds(size, count);
      WrappedAdds(PooledUsage(pools[..n]), Wrapped(Sum(pools[n].nodes)));
      WrappedAdds(PooledUsage(pools[..n]), Sum(pools[n].nodes));
    }
  }

  /** The report's totals, a sum over pools of wrapped sums, equal one direct sum over all workers, up to one
      final wrap; so they are that sum exactly when it fits in an int64. */
  lemma TotalsAreConserved(workers: seq<Node>)
    requires Members(workers).Some?
    ensures var totals := TotalsOf(Grouped(Members(workers).value));
            && totals == Metrics(Wrap(|workers|), Wrapped(UsageOf(workers)))
            && (totals.usage == UsageOf(workers) <==> UsageOf(workers).InRange())
  {
    var ms := Members(workers).value;
    PoolsAreMeasured(ms);
    PooledIsAll(ms);
    MembersUsage(workers);
    TotalsArePooled(Grouped(ms));
    InRangeUnwrapped(UsageOf(workers));
  }

  lemma {:induction false} ControlPlaneIsMeasured(masters: seq<Node>)
    ensures var cp := Controlled(masters);
            && |cp.nodes| == |masters| && Measured(cp.nodes, cp.metrics)
            && forall i :: 0 <= i < |masters| ==> cp.nodes[i] == Reported(masters[i], "control-plane")
  {
    if masters != [] {
      var n := |masters| - 1;
      ControlPlaneIsMeasured(masters[..n]);
      var cp := Controlled(masters[..n]);
      MeasuredGrows(cp.nodes, cp.metrics, Reported(masters[n], "control-plane"));
    } else {
      assert Wrap(0) == 0;
    }
  }

  ghost predicate Within(u: Usage, b: int) {
    -b <= u.cpu <= b && -b <= u.memory <= b && -b <= u.cpuConsumed <= b && -b <= u.memoryConsumed <= b
  }

  lemma ProductGrows(i: nat, n: nat, b: nat)
    requires i <= n
    ensures i * b <= n * b
  {
    assert n * b == i * b + (n - i) * b;
  }

  lemma {:induction false} SumWithin(nodes: seq<ApiNode>, b: nat)
    requires forall i :: 0 <= i < |nodes| ==> Within(nodes[i].usage, b)
    ensures Within(Sum(nodes), |nodes| * b)
  {
    if nodes != [] {
      var n := |nodes| - 1;
      SumWithin(nodes[..n], b);
      assert |nodes| * b == n * b + b;
    }
  }

  lemma {:induction false} NodesNamedWithin(ms: seq<Member>, name: string, b: nat)
    requires forall i :: 0 <= i < |ms| ==> Within(ms[i].node.usage, b)
    ensures forall i :: 0 <= i < |NodesNamed(ms, name)| ==> Within(NodesNamed(ms, name)[i].usage, b)
  {
    if ms != [] {
      NodesNamedWithin(ms[..|ms| - 1], name, b);
    }
  }

  lemma SumsWithin(u: Usage, n: nat, u': Usage, n': nat, b: nat)
    requires Within(u, n * b) && Within(u', n' * b)
    ensures Within(Plus(u, u'), (n + n') * b)
  {
    assert (n + n') * b == n * b + n' * b;
  }

  lemma {:induction false} PooledWithin(pools: seq<NodePool>, k: nat, b: nat)
    requires k <= |pools|
    requires forall i, j :: 0 <= i < |pools| && 0 <= j < |pools[i].nodes| ==> Within(pools[i].nodes[j].usage, b)
    ensures Within(PooledUsage(pools[..k]), PooledCount(pools[..k]) * b)
    ensures k > 0 ==> |pools[k - 1].nodes| <= PooledCount(pools[..k])
  {
    if k > 0 {
      PooledWithin(pools, k - 1, b);
      assert pools[..k][..k - 1] == pools[..k - 1];
      SumWithin(pools[k - 1].nodes, b);
      var before, nodes := pools[..k - 1], pools[k - 1].nodes;
      SumsWithin(PooledUsage(before), PooledCount(before), Sum(nodes), |nodes|, b);
      hide Within, Sum;
    }
  }

  lemma {:induction false} CountGrows(pools: seq<NodePool>, k: nat)
    requires k <= |pools|
    ensures PooledCount(pools[..k]) <= PooledCount(pools)
  {
    if k < |pools| {
      CountGrows(pools[..|pools| - 1], k);
      assert pools[..|pools| - 1][..k] == pools[..k];
    } else {
      assert pools[..k] == pools;
    }
  }

  /** No running sum over at most n of these nodes leaves the range. */
  lemma PrefixInRange(nodes: seq<ApiNode>, m: nat, n: nat, b: nat)
    requires m <= |nodes| <= n && n * b < LIMIT
    requires forall i :: 0 <= i < |nodes| ==> Within(nodes[i].usage, b)
    ensures Sum(nodes[..m]).InRange()
  {
    SumWithin(nodes[..m], b);
    ProductGrows(m, n, b);
  }

  lemma PoolNeverOverflows(ms: seq<Member>, p: nat, m: nat, b: nat)
    requires |ms| * b < LIMIT && p < |Grouped(ms)| && m <= |Grouped(ms)[p].nodes| <= |ms|
    requires forall i :: 0 <= i < |ms| ==> Within(ms[i].node.usage, b)
    ensures var pool := Grouped(ms)[p];
            Sum(pool.nodes[..m]).InRange() && pool.metrics.usage == Sum(pool.nodes)
  {
    var pool := Grouped(ms)[p];
    WorkersAreGrouped(ms);
    NodesNamedWithin(ms, pool.name, b);
    PrefixInRange(pool.nodes, m, |ms|, b);
    PrefixInRange(pool.nodes, |pool.nodes|, |ms|, b);
    assert pool.nodes[..|pool.nodes|] == pool.nodes;
    PoolsAreMeasured(ms);
    assert Measured(pool.nodes, pool.metrics);
    InRangeUnwrapped(Sum(pool.nodes));
  }

  /** The control plane with n masters: no running sum overflows, and its figures are the exact sums. */
  lemma ControlPlaneNeverOverflows(masters: seq<Node>, m: nat, b: nat)
    requires |masters| * b < LIMIT && m <= |masters|
    requires forall i :: 0 <= i < |masters| ==> Within(masters[i].usage, b)
    ensures var cp := Controlled(masters);
            && |cp.nodes| == |masters| && Sum(cp.nodes[..m]).InRange()
            && cp.metrics.usage == Sum(cp.nodes) == UsageOf(masters)
  {
    var cp := Controlled(masters);
    ControlPlaneIsMeasured(masters);
    PrefixInRange(cp.nodes, m, |masters|, b);
    PrefixInRange(cp.nodes, |masters|, |masters|, b);
    assert cp.nodes[..|masters|] == cp.nodes;
    InRangeUnwrapped(Sum(cp.nodes));
    MastersUsage(masters);
  }

  lemma {:induction false} MastersUsage(masters: seq<Node>)
    ensures Sum(Controlled(masters).nodes) == UsageOf(masters)
  {
    if masters != [] {
      var n := |masters| - 1;
      MastersUsage(masters[..n]);
      assert Controlled(masters).nodes[..|Controlled(masters[..n]).nodes|] == Controlled(masters[..n]).nodes;
    }
  }

  lemma TotalsNeverOverflow(ms: seq<Member>, k: nat, b: nat)
    requires |ms| * b < LIMIT && k <= |Grouped(ms)|
    requires forall i :: 0 <= i < |ms| ==> Within(ms[i].node.usage, b)
    ensures PooledUsage(Grouped(ms)[..k]).InRange()
    ensures k > 0 ==> |Grouped(ms)[k - 1].nodes| <= |ms|
  {
    var pools := Grouped(ms);
    WorkersAreGrouped(ms);
    forall i, j | 0 <= i < |pools| && 0 <= j < |pools[i].nodes|
      ensures Within(pools[i].nodes[j].usage, b)
    {
      NodesNamedWithin(ms, pools[i].name, b);
    }
    PooledWithin(pools, k, b);
    CountGrows(pools, k);
    PooledIsAll(ms);
    ProductGrows(PooledCount(pools[..k]), |ms|, b);
  }

  /** With n workers and m masters, figures of at most B each, and n*B and m*B inside int64, nothing overflows:
      not the sum over any first nodes of a pool or of the control plane, and not the running total after any
      number of pools; so the figures of each pool and of the control plane are the exact sums. */
  lemma NothingOverflows(ms: seq<Member>, masters: seq<Node>, b: nat, k: nat)
    requires |ms| * b < LIMIT && |masters| * b < LIMIT && k <= |Grouped(ms)|
    requires forall i :: 0 <= i < |ms| ==> Within(ms[i].node.usage, b)
    requires forall i :: 0 <= i < |masters| ==> Within(masters[i].usage, b)
    ensures PooledUsage(Grouped(ms)[..k]).InRange()
    ensures k > 0 ==>
              var pool := Grouped(ms)[k - 1];
              && pool.metrics.usage == Sum(pool.nodes)
              && forall m :: 0 <= m <= |pool.nodes| ==> Sum(pool.nodes[..m]).InRange()
    ensures var cp := Controlled(masters);
            && cp.metrics.usage == Sum(cp.nodes) == UsageOf(masters)
            && forall m :: 0 <= m <= |cp.nodes| ==> Sum(cp.nodes[..m]).InRange()
  {
    var cp := Controlled(masters);
    TotalsNeverOverflow(ms, k, b);
    hide Within, Grouped, Controlled, Sum, UsageOf;
    if k > 0 {
      var nodes := Grouped(ms)[k - 1].nodes;
      forall m | 0 <= m <= |nodes|
        ensures Sum(nodes[..m]).InRange()
      {
        PoolNeverOverflows(ms, k - 1, m, b);
      }
      PoolNeverOverflows(ms, k - 1, 0, b);
    }
    ControlPlaneNeverOverflows(masters, 0, b);
    forall m | 0 <= m <= |masters|
      ensures Sum(cp.nodes[..m]).InRange()
    {
      ControlPlaneNeverOverflows(masters, m, b);
    }
  }

  lemma InRangeUnwrapped(u: Usage)
    ensures Wrapped(u) == u <==> u.InRange()
  {
    WrapAdds(u.cpu, 0);
    WrapAdds(u.memory, 0);
    WrapAdds(u.cpuConsumed, 0);
    WrapAdds(u.memoryConsumed, 0);
  }

  // ---- Which pool, which nodes, which figures ----

  /** An AKS worker belongs to the second dash-separated part of its machine name, and has no pool without one. */
  lemma AksPool(node: Node, parts: seq<string>)
    requires node.provider.Aks? && |parts| >= 1 && forall p :: p in parts ==> '-' !in p
    requires node.machineName == Join(parts, '-')
    ensures PoolName(node) == if |parts| > 1 then Some(parts[1]) else None
  {
    JoinSplits(parts, '-');
  }

  /** Elsewhere, but for Talos, it is the part of the machine name that follows as many parts as the cluster name
      has, whatever these parts are. */
  lemma PoolAfterClusterName(node: Node, cluster: seq<string>, parts: seq<string>)
    requires !node.provider.Aks? && !node.provider.Talos?
    requires |cluster| >= 1 && (forall p :: p in cluster ==> '-' !in p) && node.clusterName == Join(cluster, '-')
    requires |parts| >= 1 && (forall p :: p in parts ==> '-' !in p) && node.machineName == Join(parts, '-')
    ensures PoolName(node).None? <==> |parts| <= |cluster|
    ensures forall before, pool, after :: |before| == |cluster| && parts == before + [pool] + after ==>
              PoolName(node) == Some(pool)
  {
    JoinSplits(cluster, '-');
    JoinSplits(parts, '-');
  }

  lemma TalosPool(node: Node)
    requires node.provider.Talos?
    ensures "ror.io/node-pool" in node.annotations ==> PoolName(node) == Some(node.annotations["ror.io/node-pool"])
    ensures "ror.io/node-pool" !in node.annotations ==> PoolName(node) == Some("")
  {
  }

  /** Each node is reported under its own name, machine name,
      details and figures. */
  lemma ReportedAsItIs(node: Node)
    ensures forall role :: var r := Reported(node, role);
              && r.name == node.name && r.machineName == node.machineName && r.details == node.details
              && r.usage == node.usage && r.role == role
  {
  }

  predicate HasMasterLabel(n: Node) {
    "node-role.kubernetes.io/control-plane" in n.labels
  }

  predicate LacksMasterLabel(n: Node) {
    "node-role.kubernetes.io/control-plane" !in n.labels
  }

  /** The masters are the nodes with the control-plane label, in input order. */
  lemma {:induction false} MastersAreSelected(nodes: seq<Node>) returns (at: seq<nat>)
    ensures Selects(nodes, Masters(nodes), at, HasMasterLabel, Same)
  {
    at := [];
    if nodes != [] {
      var init, last := nodes[..|nodes| - 1], nodes[|nodes| - 1];
      at := MastersAreSelected(init);
      hide Selects;
      assert init + [last] == nodes;
      SelectsOneMore(init, Masters(init), at, HasMasterLabel, Same, last);
      if HasMasterLabel(last) {
        at := at + [|init|];
      } else {
        assert Masters(nodes) == Masters(init);
      }
    }
  }

  /** The workers are all others, in input order. */
  lemma {:induction false} WorkersAreSelected(nodes: seq<Node>) returns (at: seq<nat>)
    ensures Selects(nodes, Workers(nodes), at, LacksMasterLabel, Same)
  {
    at := [];
    if nodes != [] {
      var init, last := nodes[..|nodes| - 1], nodes[|nodes| - 1];
      at := WorkersAreSelected(init);
      hide Selects;
      assert init + [last] == nodes;
      SelectsOneMore(init, Workers(init), at, LacksMasterLabel, Same, last);
      if LacksMasterLabel(last) {
        at := at + [|init|];
      } else {
        assert Workers(nodes) == Workers(init);
      }
    }
  }

  /** The nodes of a pool name are those of the members with that name, in input order. */
  lemma {:induction false} NamedNodesAreSelected(ms: seq<Member>, name: string) returns (at: seq<nat>)
    ensures Selects(ms, NodesNamed(ms, name), at, (m: Member) => m.pool == name, (m: Member) => m.node)
  {
    at := [];
    if ms != [] {
      var init, last := ms[..|ms| - 1], ms[|ms| - 1];
      at := NamedNodesAreSelected(init, name);
      assert init + [last] == ms;
      SelectsOneMore(init, NodesNamed(init, name), at, (m: Member) => m.pool == name, (m: Member) => m.node, last);
      if last.pool == name { at := at + [|init|]; }
    }
  }

  function Total(xs: seq<int>): int {
    if xs == [] then 0 else Total(xs[..|xs| - 1]) + xs[|xs| - 1]
  }

  /** The figures are summed one by one: cpu with cpu, memory with memory. */
  lemma {:induction false} SumByFigure(nodes: seq<ApiNode>)
    ensures var n := |nodes|;
            && Sum(nodes).cpu == Total(seq(n, i requires 0 <= i < n => nodes[i].usage.cpu))
            && Sum(nodes).memory == Total(seq(n, i requires 0 <= i < n => nodes[i].usage.memory))
            && Sum(nodes).cpuConsumed == Total(seq(n, i requires 0 <= i < n => nodes[i].usage.cpuConsumed))
            && Sum(nodes).memoryConsumed == Total(seq(n, i requires 0 <= i < n => nodes[i].usage.memoryConsumed))
  {
    if nodes != [] {
      var n := |nodes| - 1;
      var init := nodes[..n];
      SumByFigure(init);
      TotalSnoc(seq(n, i requires 0 <= i < n => init[i].usage.cpu), nodes[n].usage.cpu,
                seq(n + 1, i requires 0 <= i < n + 1 => nodes[i].usage.cpu));
      TotalSnoc(seq(n, i requires 0 <= i < n => init[i].usage.memory), nodes[n].usage.memory,
                seq(n + 1, i requires 0 <= i < n + 1 => nodes[i].usage.memory));
      TotalSnoc(seq(n, i requires 0 <= i < n => init[i].usage.cpuConsumed), nodes[n].usage.cpuConsumed,
                seq(n + 1, i requires 0 <= i < n + 1 => nodes[i].usage.cpuConsumed));
      TotalSnoc(seq(n, i requires 0 <= i < n => init[i].usage.memoryConsumed), nodes[n].usage.memoryConsumed,
                seq(n + 1, i requires 0 <= i < n + 1 => nodes[i].usage.memoryConsumed));
    }
  }

  lemma TotalSnoc(init: seq<int>, last: int, all: seq<int>)
    requires all == init + [last]
    ensures Total(all) == Total(init) + last
  {
    assert all[..|init|] == init;
  }
}
