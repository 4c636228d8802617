/** The cluster-framework scan of `get_frameworks` in dashboard/app.py: the
    running SuperNodes are inspected in order until one reveals the framework
    its container image was built for. */
module FrameworkScan {
  import opened Wrappers
  import opened Scans
  import opened Inventory

  /** `["FedAvg", "FedProx", "FedAdam"]`. */
  const Strategies := ["FedAvg", "FedProx", "FedAdam"]

  /** The SuperNodes `get_frameworks` inspects: the running ones. */
  predicate Scanned(v: NodeView) {
    v.role == Supernode && v.status == VmStatus.Running
  }

  /** The framework a scanned SuperNode's container reveals, if any. */
  function Detects(v: NodeView, inspect: Inspector): Option<string> {
    if Scanned(v) && Enrich(v, ProbeOf(v, inspect)).framework != "" then
      Some(Enrich(v, ProbeOf(v, inspect)).framework)
    else None
  }

  /** The index of the first node that reveals a framework, where the scan stops. */
  function FirstDetection(views: seq<NodeView>, inspect: Inspector): (r: Option<nat>)
    ensures r.Some? ==> r.value < |views| && Detects(views[r.value], inspect).Some?
    ensures r.Some? ==> forall j :: 0 <= j < r.value ==> Detects(views[j], inspect).None?
    ensures r.None? ==> forall j :: 0 <= j < |views| ==> Detects(views[j], inspect).None?
  {
    FirstFound(views, (v: NodeView) => Detects(v, inspect))
  }

  lemma FirstDetectionAt(views: seq<NodeView>, inspect: Inspector, i: nat)
    requires i < |views| && Detects(views[i], inspect).Some?
    requires forall j :: 0 <= j < i ==> Detects(views[j], inspect).None?
    ensures FirstDetection(views, inspect) == Some(i)
  {
  }

  lemma FirstDetectionNone(views: seq<NodeView>, inspect: Inspector)
    requires forall j :: 0 <= j < |views| ==> Detects(views[j], inspect).None?
    ensures FirstDetection(views, inspect) == None
  {
  }

  /** `cluster_framework`: that of the first running SuperNode that reveals one, or "". */
  function DetectedFramework(views: seq<NodeView>, inspect: Inspector): (fw: string)
    ensures fw == "" <==> forall i :: 0 <= i < |views| ==> Detects(views[i], inspect).None?
    ensures fw != "" ==> exists k ::
      && 0 <= k < |views| && Detects(views[k], inspect) == Some(fw)
      && forall j :: 0 <= j < k ==> Detects(views[j], inspect).None?
  {
    match FirstDetection(views, inspect)
    case Some(k) => Detects(views[k], inspect).value
    case None => ""
  }

  /** The nodes after the scan: the running SuperNodes up to where it stopped are enriched. */
  function ScannedViews(views: seq<NodeView>, inspect: Inspector): (r: seq<NodeView>)
    ensures |r| == |views|
  {
    match FirstDetection(views, inspect)
    case Some(k) => ScannedUpTo(views, inspect, k + 1)
    case None => ScannedUpTo(views, inspect, |views|)
  }

  /** On freshly collected nodes the detected framework is one of the three
      known ones, and "" exactly when no running SuperNode reveals one. */
  lemma DetectedFrameworkKnown(views: seq<NodeView>, inspect: Inspector)
    requires forall v :: v in views ==> v.framework == ""
    ensures DetectedFramework(views, inspect) in {"", "pytorch", "tensorflow", "sklearn"}
    ensures DetectedFramework(views, inspect) == "" <==>
      forall i :: 0 <= i < |views| ==> Detects(views[i], inspect).None?
  {
    var r := FirstDetection(views, inspect);
    if r.Some? {
      var v := views[r.value];
      assert v in views;
      var e := Enrich(v, ProbeOf(v, inspect));
      assert e.framework == "" || e.framework in Frameworks;
    }
  }

  /** The response of `/api/frameworks`; the demo-directory scan and the
      defaults read from its `pyproject.toml` are given. */
  datatype FrameworksReply = FrameworksReply(
    frameworks: seq<string>,
    clusterFramework: string,
    strategies: seq<string>,
    defaults: map<string, string>)

  /** One node of the scan: a running SuperNode is enriched. */
  function Scan(v: NodeView, inspect: Inspector): NodeView {
    if Scanned(v) then Enrich(v, ProbeOf(v, inspect)) else v
  }

  /** One step of the framework scan, on the `i`-th node of the list. */
  method ScanNode(nodes: seq<NodeInfo>, i: nat, inspect: Inspector) returns (found: string)
    requires i < |nodes| && forall j :: 0 <= j < |nodes| && j != i ==> nodes[j] != nodes[i]
    modifies nodes[i]
    ensures nodes[i].View() == Scan(old(nodes[i].View()), inspect)
    ensures forall j :: 0 <= j < |nodes| && j != i ==> nodes[j].View() == old(nodes[j].View())
    ensures found == Detects(old(nodes[i].View()), inspect).GetOr("")
  {
    var node := nodes[i];
    found := "";
    if node.role == Supernode && node.status == VmStatus.Running {
      CollectContainerInfo(node, ProbeOf(node.View(), inspect));
      found := node.framework;
    }
  }


  /** The nodes after the scan has passed the first `i` of them. */
  function ScannedUpTo(views: seq<NodeView>, inspect: Inspector, i: nat): (r: seq<NodeView>)
    ensures |r| == |views|
  {
    seq(|views|, j requires 0 <= j < |views| => if j < i then Scan(views[j], inspect) else views[j])
  }

  lemma ScannedUpToStep(views: seq<NodeView>, inspect: Inspector, i: nat)
    requires i < |views|
    ensures ScannedUpTo(views, inspect, i)[i := Scan(views[i], inspect)] == ScannedUpTo(views, inspect, i + 1)
  {
  }

  /** The scan stops at the first node that reveals a framework. */
  lemma ScanStopsAt(views: seq<NodeView>, inspect: Inspector, i: nat)
    requires i < |views| && Detects(views[i], inspect).Some?
    requires forall j :: 0 <= j < i ==> Detects(views[j], inspect).None?
    ensures DetectedFramework(views, inspect) == Detects(views[i], inspect).value
    ensures ScannedViews(views, inspect) == ScannedUpTo(views, inspect, i + 1)
  {
    FirstDetectionAt(views, inspect, i);
  }

  /** When no node reveals a framework, the scan passes every node. */
  lemma ScanRunsThrough(views: seq<NodeView>, inspect: Inspector)
    requires forall j :: 0 <= j < |views| ==> Detects(views[j], inspect).None?
    ensures DetectedFramework(views, inspect) == ""
    ensures ScannedViews(views, inspect) == ScannedUpTo(views, inspect, |views|)
  {
    FirstDetectionNone(views, inspect);
  }

  /** The framework scan of `get_frameworks`: enrich running SuperNodes in order
      until one reveals a framework. */
  method DetectClusterFramework(nodes: seq<NodeInfo>, inspect: Inspector) returns (clusterFramework: string)
    requires forall i, j :: 0 <= i < j < |nodes| ==> nodes[i] != nodes[j]
    modifies set n | n in nodes
    ensures clusterFramework == DetectedFramework(old(Views(nodes)), inspect)
    ensures Views(nodes) == ScannedViews(old(Views(nodes)), inspect)
  {
    ghost var before := Views(nodes);
    ghost var current := before;
    clusterFramework := "";
    var i := 0;
    while i < |nodes|
      invariant 0 <= i <= |nodes|
      invariant forall j :: 0 <= j < i ==> Detects(before[j], inspect).None?
      invariant current == ScannedUpTo(before, inspect, i)
      invariant forall j :: 0 <= j < |nodes| ==> nodes[j].View() == current[j]
      decreases |nodes| - i
    {
      var found := ScanNode(nodes, i, inspect);
      ScannedUpToStep(before, inspect, i);
      current := current[i := nodes[i].View()];
      if found != "" {
        ScanStopsAt(before, inspect, i);
        clusterFramework := found;
        break;
      }
      i := i + 1;
    }
    if i == |nodes| {
      ScanRunsThrough(before, inspect);
    }
    assert Views(nodes) == current;
  }

  /** `get_frameworks`, given the exit status and decoded output of
      `onevm list -j`, the hosts' answers, and the demo-directory scan. */
  method GetFrameworks(rc: int, doc: Option<PoolDoc>, inspect: Inspector,
                       frameworks: seq<string>, defaults: map<string, string>)
    returns (reply: FrameworksReply)
    ensures reply == FrameworksReply(frameworks, DetectedFramework(PoolNodes(rc, doc), inspect), Strategies, defaults)
  {
    var nodes := CollectNodes(rc, doc);
    var clusterFramework := DetectClusterFramework(nodes, inspect);
    reply := FrameworksReply(frameworks, clusterFramework, Strategies, defaults);
  }
}
