/** `collect_nodes` and `collect_container_info` of dashboard/app.py: the
    OpenNebula VM pool, already decoded from the JSON printed by
    `onevm list -j`, is mapped to `NodeInfo` records, and a record is then
    enriched in place from the output of `docker inspect` on its VM. */
module Inventory {
  import opened Wrappers
  import opened Text

  // ---------------------------------------------------------------------
  // The decoded VM pool
  // ---------------------------------------------------------------------

  /** A network interface; `IP` may be missing. */
  datatype Nic = Nic(ip: Option<string>)

  /** `TEMPLATE.NIC` is one interface (a JSON object) or a list of them. */
  datatype NicField = NicDict(nic: Nic) | NicList(nics: seq<Nic>)

  /** `TEMPLATE.CONTEXT`; only `ONEAPP_FL_SUPERLINK_ADDRESS` is read. */
  datatype Context = Context(superlinkAddress: Option<string>)

  /** `TEMPLATE`; numbers are given as already converted by `int(...)`. */
  datatype Template = Template(
    nic: Option<NicField>,
    context: Option<Context>,
    vcpu: Option<int>,
    cpu: Option<int>,
    memory: Option<int>)

  /** One entry of `VM_POOL.VM`; every key may be missing. */
  datatype Vm = Vm(id: Option<int>, name: Option<string>, lcmState: Option<int>, template: Option<Template>)

  /** `VM_POOL.VM` is one VM (a JSON object) or a list of them. */
  datatype VmField = OneVm(vm: Vm) | VmList(vms: seq<Vm>)

  /** The decoded document; `vmPool == None` stands for a missing or empty `VM_POOL`. */
  datatype PoolDoc = PoolDoc(vmPool: Option<VmField>)

  // ---------------------------------------------------------------------
  // Node records
  // ---------------------------------------------------------------------

  datatype Role = Superlink | Supernode

  /** `NodeInfo.status`: the LCM state through the table {3: running, 5: stopped, 36: unknown}. */
  datatype VmStatus = Running | Stopped | Unknown | Other

  /** The value of every field of a `NodeInfo`. */
  datatype NodeView = NodeView(
    vmId: int,
    name: string,
    role: Role,
    ip: string,
    status: VmStatus,
    cpu: int,
    memoryMb: int,
    containerStatus: string,
    containerUptime: string,
    flowerVersion: string,
    superlinkAddress: string,
    framework: string)

  /** A `NodeInfo` record.  The fields that describe the VM are fixed when it
      is built; the container fields are updated in place by `CollectContainerInfo`. */
  class NodeInfo {
    const vmId: int
    const name: string
    const role: Role
    const ip: string
    const status: VmStatus
    const cpu: int
    const memoryMb: int
    const superlinkAddress: string
    var containerStatus: string
    var containerUptime: string
    var flowerVersion: string
    var framework: string

    /** `NodeInfo(...)` with the container fields at their defaults. */
    constructor (vmId: int, name: string, role: Role, ip: string, status: VmStatus,
                 cpu: int, memoryMb: int, superlinkAddress: string)
      ensures View() == NodeView(vmId, name, role, ip, status, cpu, memoryMb,
                                 "unknown", "", "", superlinkAddress, "")
    {
      this.vmId := vmId;
      this.name := name;
      this.role := role;
      this.ip := ip;
      this.status := status;
      this.cpu := cpu;
      this.memoryMb := memoryMb;
      this.superlinkAddress := superlinkAddress;
      containerStatus := "unknown";
      containerUptime := "";
      flowerVersion := "";
      framework := "";
    }

    function View(): NodeView
      reads this
    {
      NodeView(vmId, name, role, ip, status, cpu, memoryMb,
               containerStatus, containerUptime, flowerVersion, superlinkAddress, framework)
    }
  }

  /** The views of a list of records, in order. */
  function Views(nodes: seq<NodeInfo>): (r: seq<NodeView>)
    reads set n | n in nodes
    ensures |r| == |nodes| && forall i :: 0 <= i < |nodes| ==> r[i] == nodes[i].View()
  {
    seq(|nodes|, i reads set n | n in nodes requires 0 <= i < |nodes| => nodes[i].View())
  }


  // ---------------------------------------------------------------------
  // From VM to record
  // ---------------------------------------------------------------------

  /** A VM is listed when its lowercased name contains `flower`, `superlink` or `supernode`. */
  predicate Keep(vm: Vm) {
    var lower := Lower(vm.name.GetOr(""));
    Contains(lower, "flower") || Contains(lower, "superlink") || Contains(lower, "supernode")
  }

  /** The role rule: `superlink` exactly when the lowercased name says so. */
  function RoleOf(name: string): (r: Role)
    ensures r == Superlink <==> Contains(Lower(name), "superlink")
  {
    if Contains(Lower(name), "superlink") then Superlink else Supernode
  }

  /** The LCM state table, with `other` for every code it does not list. */
  function StateOf(lcmState: int): (s: VmStatus)
    ensures s == Running <==> lcmState == 3
    ensures s == Stopped <==> lcmState == 5
    ensures s == Unknown <==> lcmState == 36
    ensures s == Other <==> lcmState !in {3, 5, 36}
  {
    if lcmState == 3 then Running
    else if lcmState == 5 then Stopped
    else if lcmState == 36 then Unknown
    else Other
  }

  /** The first interface of a list, or an empty one for an empty list. */
  function FirstNic(field: NicField): Nic {
    match field
    case NicDict(nic) => nic
    case NicList(nics) => if nics != [] then nics[0] else Nic(None)
  }

  /** `nic.get("IP", "")` after the list-or-object normalisation. */
  function NicIp(t: Template): string {
    match t.nic
    case None => ""
    case Some(field) => FirstNic(field).ip.GetOr("")
  }

  /** A list-valued NIC reads as its first element, and an empty list as no address. */
  lemma NicListNormalised(t: Template, n: Nic, rest: seq<Nic>)
    ensures NicIp(t.(nic := Some(NicList([n] + rest)))) == NicIp(t.(nic := Some(NicDict(n))))
    ensures NicIp(t.(nic := Some(NicList([])))) == ""
  {
  }

  const NoTemplate := Template(None, None, None, None, None)

  /** The record `collect_nodes` builds for a VM. */
  function ViewOf(vm: Vm): (v: NodeView)
    ensures v.name == vm.name.GetOr("")
    ensures v.role == Superlink <==> Contains(Lower(v.name), "superlink")
    ensures v.status == StateOf(vm.lcmState.GetOr(0))
    ensures var t := vm.template.GetOr(NoTemplate);
      && v.vmId == vm.id.GetOr(0)
      && v.ip == NicIp(t)
      && v.cpu == (if t.vcpu.Some? then t.vcpu.value else t.cpu.GetOr(0))
      && v.memoryMb == t.memory.GetOr(0)
      && v.superlinkAddress == t.context.GetOr(Context(None)).superlinkAddress.GetOr("")
    ensures v.containerStatus == "unknown" && v.framework == ""
    ensures v.containerUptime == "" && v.flowerVersion == ""
  {
    var name := vm.name.GetOr("");
    var t := vm.template.GetOr(NoTemplate);
    var cpu := match t.vcpu case Some(c) => c case None => t.cpu.GetOr(0);
    NodeView(vm.id.GetOr(0), name, RoleOf(name), NicIp(t), StateOf(vm.lcmState.GetOr(0)), cpu,
             t.memory.GetOr(0), "unknown", "", "",
             t.context.GetOr(Context(None)).superlinkAddress.GetOr(""), "")
  }

  /** The records of the kept VMs, in pool order. */
  function Kept(vms: seq<Vm>): seq<NodeView>
    decreases |vms|
  {
    if vms == [] then []
    else
      var prev := Kept(vms[..|vms| - 1]);
      var vm := vms[|vms| - 1];
      if Keep(vm) then prev + [ViewOf(vm)] else prev
  }

  /** `VM_POOL.VM` as a list. */
  function VmsOf(field: VmField): seq<Vm> {
    match field
    case OneVm(vm) => [vm]
    case VmList(vms) => vms
  }

  /** What `collect_nodes` returns, given the exit status of `onevm list -j`
      and its output decoded (`None` when it is not valid JSON). */
  function PoolNodes(rc: int, doc: Option<PoolDoc>): (r: seq<NodeView>)
    ensures rc != 0 || doc.None? ==> r == []
    ensures forall i :: 0 <= i < |r| ==> r[i].containerStatus == "unknown" && r[i].framework == ""
  {
    if rc != 0 then []
    else match doc
      case None => []
      case Some(PoolDoc(None)) => []
      case Some(PoolDoc(Some(field))) =>
        KeptOnlyFlower(VmsOf(field));
        Kept(VmsOf(field))
  }

  /** A failed command, undecodable output or an empty pool gives no nodes. */
  lemma InventoryErrors(rc: int, doc: Option<PoolDoc>)
    ensures rc != 0 || doc.None? || doc.value.vmPool.None? ==> PoolNodes(rc, doc) == []
  {
  }

  /** A single VM object is read as a one-element list. */
  lemma OneVmIsList(rc: int, vm: Vm)
    ensures PoolNodes(rc, Some(PoolDoc(Some(OneVm(vm))))) == PoolNodes(rc, Some(PoolDoc(Some(VmList([vm])))))
  {
  }

  /** Every listed record is that of a VM with a Flower keyword in its name,
      and there are never more records than VMs. */
  lemma {:induction false} KeptOnlyFlower(vms: seq<Vm>)
    ensures |Kept(vms)| <= |vms|
    ensures forall k :: 0 <= k < |Kept(vms)| ==>
      exists i :: 0 <= i < |vms| && Keep(vms[i]) && Kept(vms)[k] == ViewOf(vms[i])
    decreases |vms|
  {
    if vms != [] {
      var init := vms[..|vms| - 1];
      var last := |vms| - 1;
      KeptOnlyFlower(init);
      assert forall k :: 0 <= k < |Kept(init)| ==>
        exists i :: 0 <= i < |init| && Keep(init[i]) && Kept(init)[k] == ViewOf(init[i]);
      var prev := Kept(init);
      forall k | 0 <= k < |Kept(vms)|
        ensures exists i :: 0 <= i < |vms| && Keep(vms[i]) && Kept(vms)[k] == ViewOf(vms[i])
      {
        if k < |prev| {
          assert exists i :: 0 <= i < |init| && Keep(init[i]) && Kept(init)[k] == ViewOf(init[i]);
          var i :| 0 <= i < |init| && Keep(init[i]) && prev[k] == ViewOf(init[i]);
          assert Kept(vms)[k] == prev[k];
          assert vms[i] == init[i];
        } else {
          assert Keep(vms[last]) && Kept(vms)[k] == ViewOf(vms[last]);
        }
      }
    }
  }

  /** Every VM with a Flower keyword in its name is listed. */
  lemma {:induction false} KeptAllFlower(vms: seq<Vm>)
    ensures forall i :: 0 <= i < |vms| && Keep(vms[i]) ==> ViewOf(vms[i]) in Kept(vms)
    decreases |vms|
  {
    if vms != [] {
      var init := vms[..|vms| - 1];
      var last := |vms| - 1;
      KeptAllFlower(init);
      var prev := Kept(init);
      assert prev <= Kept(vms);
      forall i | 0 <= i < |vms| && Keep(vms[i])
        ensures ViewOf(vms[i]) in Kept(vms)
      {
        if i < last {
          assert init[i] == vms[i];
        }
      }
    }
  }

  /** The indices of the kept VMs, in increasing order. */
  function KeptIndices(vms: seq<Vm>): (idx: seq<nat>)
    ensures forall k :: 0 <= k < |idx| ==> idx[k] < |vms| && Keep(vms[idx[k]])
    ensures forall k, l :: 0 <= k < l < |idx| ==> idx[k] < idx[l]
    ensures forall i :: 0 <= i < |vms| && Keep(vms[i]) ==> i in idx
    decreases |vms|
  {
    if vms == [] then []
    else
      var last := |vms| - 1;
      var prev := KeptIndices(vms[..last]);
      assert forall k :: 0 <= k < |prev| ==> vms[..last][prev[k]] == vms[prev[k]];
      if Keep(vms[last]) then prev + [last] else prev
  }

  /** The records keep the pool order: the `k`-th record is that of the
      `k`-th kept VM. */
  lemma {:induction false} KeptInPoolOrder(vms: seq<Vm>)
    ensures var idx := KeptIndices(vms);
      |Kept(vms)| == |idx| && forall k :: 0 <= k < |idx| ==> Kept(vms)[k] == ViewOf(vms[idx[k]])
    decreases |vms|
  {
    if vms != [] {
      var last := |vms| - 1;
      var init := vms[..last];
      KeptInPoolOrder(init);
      var idx := KeptIndices(init);
      assert forall k :: 0 <= k < |idx| ==> init[idx[k]] == vms[idx[k]];
    }
  }

  /** `collect_nodes`: one fresh record per kept VM. */
  method CollectNodes(rc: int, doc: Option<PoolDoc>) returns (nodes: seq<NodeInfo>)
    ensures Views(nodes) == PoolNodes(rc, doc)
    ensures forall i :: 0 <= i < |nodes| ==> fresh(nodes[i])
    ensures forall i, j :: 0 <= i < j < |nodes| ==> nodes[i] != nodes[j]
  {
    nodes := [];
    if rc != 0 {
      return;
    }
    if doc.None? {
      return;
    }
    var vmPool := doc.value.vmPool;
    if vmPool.None? {
      return;
    }
    var vms := VmsOf(vmPool.value);
    for i := 0 to |vms|
      invariant Views(nodes) == Kept(vms[..i])
      invariant forall k :: 0 <= k < |nodes| ==> fresh(nodes[k])
      invariant forall k, l :: 0 <= k < l < |nodes| ==> nodes[k] != nodes[l]
    {
      assert vms[..i + 1][..i] == vms[..i];
      var vm := vms[i];
      if !Keep(vm) {
        continue;
      }
      var v := ViewOf(vm);
      var node := new NodeInfo(v.vmId, v.name, v.role, v.ip, v.status, v.cpu, v.memoryMb, v.superlinkAddress);
      assert Views(nodes + [node])[..|nodes|] == Views(nodes);
      nodes := nodes + [node];
    }
    assert vms[..|vms|] == vms;
  }

  // ---------------------------------------------------------------------
  // Container enrichment
  // ---------------------------------------------------------------------

  /** What `docker inspect` on the node's VM gave: the exit status, the output
      `<status> <started-at> <image>`, and the whole seconds elapsed since
      `started-at` (`None` when the timestamp does not parse). */
  datatype Probe = Probe(rc: int, out: string, elapsedSeconds: Option<int>)

  /** The container inspected on a node of the given role. */
  function ContainerFor(role: Role): (name: string)
    ensures name == "flower-superlink" <==> role.Superlink?
    ensures name == "flower-supernode" <==> role.Supernode?
  {
    assert "flower-superlink"[12] != "flower-supernode"[12];
    if role == Superlink then "flower-superlink" else "flower-supernode"
  }

  /** `divmod(seconds, 3600)` and then `divmod(remainder, 60)`, with Python's
      floor division. */
  function UptimeParts(seconds: int): (hm: (int, int))
    ensures 0 <= hm.1 < 60
    ensures seconds >= 0 ==> hm.0 >= 0
    ensures hm.0 * 3600 + hm.1 * 60 <= seconds < hm.0 * 3600 + hm.1 * 60 + 60
  {
    var hours := seconds / 3600;
    var remainder := seconds % 3600;
    (hours, remainder / 60)
  }

  /** `f"{hours}h {minutes}m"`. */
  function Uptime(seconds: int): string {
    var (hours, minutes) := UptimeParts(seconds);
    IntToString(hours) + "h " + IntToString(minutes) + "m"
  }

  /** `image.split(":")[-1] if ":" in image else image`. */
  function ImageTag(image: string): string {
    if ':' in image then
      var parts := Split(image, ':');
      parts[|parts| - 1]
    else image
  }

  /** The tag is the text after the last `:` of the image, or the whole image. */
  lemma ImageTagIsSuffix(image: string)
    ensures var tag := ImageTag(image);
      && ':' !in tag
      && |tag| <= |image| && image[|image| - |tag|..] == tag
      && (':' in image <==> |tag| < |image|)
      && (|tag| < |image| ==> image[|image| - |tag| - 1] == ':')
  {
    SplitLast(image, ':');
  }

  /** The frameworks looked for in an image name, in this order. */
  const Frameworks := ["pytorch", "tensorflow", "sklearn"]

  /** The index of the first candidate that occurs in `s`. */
  function FirstContained(candidates: seq<string>, s: string): (r: Option<nat>)
    ensures r.Some? ==> r.value < |candidates| && Contains(s, candidates[r.value])
    ensures r.Some? ==> forall j :: 0 <= j < r.value ==> !Contains(s, candidates[j])
    ensures r.None? ==> forall j :: 0 <= j < |candidates| ==> !Contains(s, candidates[j])
    decreases |candidates|
  {
    if candidates == [] then None
    else if Contains(s, candidates[0]) then Some(0)
    else match FirstContained(candidates[1..], s)
      case Some(k) => Some(k + 1)
      case None => None
  }

  /** The framework an image name reveals, if any. */
  function ImageFramework(image: string): (r: Option<string>)
    ensures r.None? <==> forall k :: 0 <= k < |Frameworks| ==> !Contains(Lower(image), Frameworks[k])
    ensures r.Some? ==> exists k ::
      && 0 <= k < |Frameworks| && r.value == Frameworks[k]
      && Contains(Lower(image), Frameworks[k])
      && forall j :: 0 <= j < k ==> !Contains(Lower(image), Frameworks[j])
  {
    match FirstContained(Frameworks, Lower(image))
    case Some(k) => Some(Frameworks[k])
    case None => None
  }

  /** A node `collect_container_info` inspects: it has an address and is running. */
  predicate Inspected(v: NodeView) {
    v.ip != "" && v.status == Running
  }

  /** The record after `collect_container_info`. */
  function Enrich(v: NodeView, probe: Probe): (e: NodeView)
    ensures e == v.(containerStatus := e.containerStatus, containerUptime := e.containerUptime,
                    flowerVersion := e.flowerVersion, framework := e.framework)
  {
    if !Inspected(v) then v
    else if probe.rc == 0 && probe.out != "" then
      var parts := Fields(probe.out);
      if |parts| >= 3 then
        v.(containerStatus := parts[0],
           containerUptime := match probe.elapsedSeconds
             case Some(s) => Uptime(s)
             case None => "unknown",
           flowerVersion := ImageTag(parts[2]),
           framework := ImageFramework(parts[2]).GetOr(v.framework))
      else v
    else v.(containerStatus := "not found")
  }

  /** A node without an address or not running is left as it is. */
  lemma EnrichSkips(v: NodeView, probe: Probe)
    requires !Inspected(v)
    ensures Enrich(v, probe) == v
  {
  }

  /** A failed or silent `docker inspect` marks the container as not found and nothing else. */
  lemma EnrichNotFound(v: NodeView, probe: Probe)
    requires Inspected(v) && (probe.rc != 0 || probe.out == "")
    ensures Enrich(v, probe) == v.(containerStatus := "not found")
  {
  }

  /** Output with fewer than three fields leaves the node unchanged. */
  lemma EnrichShortOutput(v: NodeView, probe: Probe)
    requires probe.rc == 0 && probe.out != "" && |Fields(probe.out)| < 3
    ensures Enrich(v, probe) == v
  {
  }

  /** Reading back an inspect line `<status> <started-at> <image>`: the status,
      the tag and the first framework named in the image. */
  lemma EnrichReadsInspect(v: NodeView, status: string, startedAt: string, image: string, elapsed: Option<int>)
    requires Inspected(v)
    requires forall w :: w in [status, startedAt, image] ==> w != [] && NoSpace(w)
    ensures var e := Enrich(v, Probe(0, Join([status, startedAt, image], ' '), elapsed));
      && e.containerStatus == status
      && e.flowerVersion == ImageTag(image)
      && e.containerUptime == (if elapsed.Some? then Uptime(elapsed.value) else "unknown")
      && e.framework == ImageFramework(image).GetOr(v.framework)
      && (e.framework in Frameworks || e.framework == v.framework)
      && ((forall k :: 0 <= k < |Frameworks| ==> !Contains(Lower(image), Frameworks[k])) ==> e.framework == v.framework)
  {
    var ws := [status, startedAt, image];
    assert forall i :: 0 <= i < |ws| ==> ws[i] in ws;
    FieldsOfJoin(ws);
    assert Join(ws, ' ') != [] by {
      assert Join(ws, ' ') == status + [' '] + Join(ws[1..], ' ');
    }
  }

  /** `collect_container_info`: update the node in place from what
      `docker inspect` gave on its VM. */
  method CollectContainerInfo(node: NodeInfo, probe: Probe)
    modifies node
    ensures node.View() == Enrich(old(node.View()), probe)
  {
    if node.ip == "" || node.status != Running {
      return;
    }
    if probe.rc == 0 && probe.out != "" {
      var parts := Fields(probe.out);
      if |parts| >= 3 {
        node.containerStatus := parts[0];
        match probe.elapsedSeconds {
          case Some(s) => node.containerUptime := Uptime(s);
          case None => node.containerUptime := "unknown";
        }
        node.flowerVersion := if ':' in parts[2] then Split(parts[2], ':')[|Split(parts[2], ':')| - 1] else parts[2];
        var imageName := Lower(parts[2]);
        for k := 0 to |Frameworks|
          invariant forall j :: 0 <= j < k ==> !Contains(imageName, Frameworks[j])
          invariant node.framework == old(node.framework)
        {
          if Contains(imageName, Frameworks[k]) {
            node.framework := Frameworks[k];
            break;
          }
        }
      }
    } else {
      node.containerStatus := "not found";
    }
  }

  /** `docker inspect <container>` on the VM with the given address. */
  type Inspector = (string, string) -> Probe

  /** What `collect_container_info` is told about this node's container. */
  function ProbeOf(v: NodeView, inspect: Inspector): Probe {
    inspect(v.ip, ContainerFor(v.role))
  }
}
