/** `get_cluster_state` in dashboard/app.py, which ties the collectors
    together: collect and enrich the nodes, pick the SuperLink address and the
    cluster framework, and parse the SuperLink's log.  The remote hosts are
    given as functions from an address (and a container name) to what the
    command run there printed. */
module Dashboard {
  import opened Wrappers
  import opened Scans
  import opened Inventory
  import opened RunParser

  // ---------------------------------------------------------------------
  // The remote commands
  // ---------------------------------------------------------------------

  /** The exit status and output of a log command on the SuperLink with the given address. */
  type LogReader = string -> (int, string)

  /** Every node after `collect_container_info`. */
  function EnrichAll(views: seq<NodeView>, inspect: Inspector): (r: seq<NodeView>)
    ensures |r| == |views|
    ensures forall i :: 0 <= i < |views| ==> r[i] == Enrich(views[i], ProbeOf(views[i], inspect))
  {
    seq(|views|, i requires 0 <= i < |views| => Enrich(views[i], ProbeOf(views[i], inspect)))
  }

  // ---------------------------------------------------------------------
  // SuperLink address and cluster framework
  // ---------------------------------------------------------------------

  /** The address of a running SuperLink. */
  function RunningSuperlinkIp(v: NodeView): Option<string> {
    if v.role == Superlink && v.status == VmStatus.Running then Some(v.ip) else None
  }

  /** The framework a SuperNode's container revealed. */
  function SupernodeFramework(v: NodeView): Option<string> {
    if v.role == Supernode && v.framework != "" then Some(v.framework) else None
  }

  /** `superlink_ip`: the address of the last running SuperLink, or "". */
  function SuperlinkIp(views: seq<NodeView>): string {
    LastFound(views, RunningSuperlinkIp, "")
  }

  /** `framework`: that of the last SuperNode with a known framework, or "". */
  function ClusterFramework(views: seq<NodeView>): string {
    LastFound(views, SupernodeFramework, "")
  }

  /** The later node wins in both selections, and a node that does not
      qualify never changes them. */
  lemma SelectionIsLast(views: seq<NodeView>)
    ensures (forall i :: 0 <= i < |views| ==> RunningSuperlinkIp(views[i]).None?) ==> SuperlinkIp(views) == ""
    ensures forall i :: 0 <= i < |views| && views[i].role == Superlink && views[i].status == VmStatus.Running &&
                        (forall j :: i < j < |views| ==> RunningSuperlinkIp(views[j]).None?) ==>
                          SuperlinkIp(views) == views[i].ip
    ensures (forall i :: 0 <= i < |views| ==> SupernodeFramework(views[i]).None?) ==> ClusterFramework(views) == ""
    ensures forall i :: 0 <= i < |views| && views[i].role == Supernode && views[i].framework != "" &&
                        (forall j :: i < j < |views| ==> SupernodeFramework(views[j]).None?) ==>
                          ClusterFramework(views) == views[i].framework
  {
    LastFoundIsLastMatch(views, RunningSuperlinkIp, "");
    LastFoundIsLastMatch(views, SupernodeFramework, "");
  }

  /** The selection loop of `get_cluster_state`. */
  method SelectSuperlinkAndFramework(nodes: seq<NodeInfo>) returns (superlinkIp: string, framework: string)
    ensures superlinkIp == SuperlinkIp(Views(nodes))
    ensures framework == ClusterFramework(Views(nodes))
  {
    superlinkIp := "";
    framework := "";
    for i := 0 to |nodes|
      invariant superlinkIp == SuperlinkIp(Views(nodes[..i]))
      invariant framework == ClusterFramework(Views(nodes[..i]))
    {
      assert Views(nodes[..i + 1]) == Views(nodes[..i]) + [nodes[i].View()];
      var node := nodes[i];
      if node.role == Superlink && node.status == VmStatus.Running {
        superlinkIp := node.ip;
      }
      if node.role == Supernode && node.framework != "" {
        framework := node.framework;
      }
    }
    assert nodes[..|nodes|] == nodes;
  }

  // ---------------------------------------------------------------------
  // get_cluster_state
  // ---------------------------------------------------------------------

  /** The response of `/api/cluster`, without its timestamp. */
  datatype ClusterState = ClusterState(
    nodes: seq<NodeView>,
    currentRun: RunInfo,
    connectedSupernodes: nat,
    superlinkIp: string)

  /** What `get_cluster_state` returns, given the exit status and decoded output
      of `onevm list -j` and the hosts' answers. */
  function ClusterStateOf(rc: int, doc: Option<PoolDoc>, inspect: Inspector,
                          logs: LogReader, logTail: LogReader): (s: ClusterState)
    ensures |s.nodes| == |PoolNodes(rc, doc)|
    ensures s.currentRun.numRoundsCompleted == |s.currentRun.rounds|
    ensures s.superlinkIp == "" ==> s.currentRun == DefaultRunInfo && s.connectedSupernodes == 0
  {
    var views := EnrichAll(PoolNodes(rc, doc), inspect);
    var ip := SuperlinkIp(views);
    var fw := ClusterFramework(views);
    ClusterState(views, ParseRunInfo(ip, fw, logs(ip).0, logs(ip).1),
                 ConnectedNodes(ip, logTail(ip).0, logTail(ip).1), ip)
  }

  /** Without a running SuperLink there is no run and no connected SuperNode. */
  lemma NoSuperlinkNoRun(rc: int, doc: Option<PoolDoc>, inspect: Inspector, logs: LogReader, logTail: LogReader)
    requires forall v :: v in PoolNodes(rc, doc) ==> v.role != Superlink || v.status != VmStatus.Running
    ensures var s := ClusterStateOf(rc, doc, inspect, logs, logTail);
      s.superlinkIp == "" && s.currentRun == DefaultRunInfo && s.connectedSupernodes == 0
  {
    var inv := PoolNodes(rc, doc);
    var views := EnrichAll(inv, inspect);
    forall i | 0 <= i < |views|
      ensures RunningSuperlinkIp(views[i]).None?
    {
      assert inv[i] in inv;
    }
    LastFoundIsLastMatch(views, RunningSuperlinkIp, "");
  }

  /** The nodes are those of the inventory, each enriched, with its VM fields unchanged. */
  lemma ClusterNodes(rc: int, doc: Option<PoolDoc>, inspect: Inspector, logs: LogReader, logTail: LogReader)
    ensures var s := ClusterStateOf(rc, doc, inspect, logs, logTail);
      var inv := PoolNodes(rc, doc);
      && |s.nodes| == |inv|
      && forall i :: 0 <= i < |inv| ==>
           var e := s.nodes[i];
           e == inv[i].(containerStatus := e.containerStatus, containerUptime := e.containerUptime,
                        flowerVersion := e.flowerVersion, framework := e.framework)
  {
  }

  /** `collect_container_info` on the `i`-th node of the list. */
  method EnrichAt(nodes: seq<NodeInfo>, i: nat, inspect: Inspector)
    requires i < |nodes| && forall j :: 0 <= j < |nodes| && j != i ==> nodes[j] != nodes[i]
    modifies nodes[i]
    ensures nodes[i].View() == Enrich(old(nodes[i].View()), ProbeOf(old(nodes[i].View()), inspect))
    ensures forall j :: 0 <= j < |nodes| && j != i ==> nodes[j].View() == old(nodes[j].View())
  {
    CollectContainerInfo(nodes[i], ProbeOf(nodes[i].View(), inspect));
  }

  /** The first loop of `get_cluster_state`: `collect_container_info` on every node. */
  method EnrichNodes(nodes: seq<NodeInfo>, inspect: Inspector)
    requires forall i, j :: 0 <= i < j < |nodes| ==> nodes[i] != nodes[j]
    modifies set n | n in nodes
    ensures Views(nodes) == EnrichAll(old(Views(nodes)), inspect)
  {
    ghost var before := Views(nodes);
    for i := 0 to |nodes|
      invariant forall j :: 0 <= j < i ==> nodes[j].View() == Enrich(before[j], ProbeOf(before[j], inspect))
      invariant forall j :: i <= j < |nodes| ==> nodes[j].View() == before[j]
    {
      EnrichAt(nodes, i, inspect);
    }
  }

  /** `get_cluster_state`: collect, enrich every node, select, parse. */
  method GetClusterState(rc: int, doc: Option<PoolDoc>, inspect: Inspector,
                         logs: LogReader, logTail: LogReader) returns (state: ClusterState)
    ensures state == ClusterStateOf(rc, doc, inspect, logs, logTail)
  {
    var nodes := CollectNodes(rc, doc);
    EnrichNodes(nodes, inspect);
    var views := Views(nodes);
    var superlinkIp, framework := SelectSuperlinkAndFramework(nodes);
    var logRc, logOut := logs(superlinkIp).0, logs(superlinkIp).1;
    var runInfo := CollectTrainingLogs(superlinkIp, framework, logRc, logOut);
    var tailRc, tailOut := logTail(superlinkIp).0, logTail(superlinkIp).1;
    var connected := CollectConnectedNodes(superlinkIp, tailRc, tailOut);
    state := ClusterState(views, runInfo, connected, superlinkIp);
  }
}
