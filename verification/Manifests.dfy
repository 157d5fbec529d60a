/** The objects derived from a component's custom resource, in the order its controller applies them. */
module Manifests {
  import opened Wrappers
  import opened Kubernetes
  import opened CustomResources
  import opened Names
  import opened Selection
  import opened Common
  import Node = NodeController
  import Keyed = KeyedControllers
  import Plot = HarvesterController

  function PeerPort(cr: CR): int {
    match cr.component
    case Node(_) => Node.FullNodePort(cr.spec)
    case Farmer(_, _) => Keyed.FARMER_PORT
    case Harvester(_) => Plot.HARVESTER_PORT
    case Wallet(_, _) => Keyed.WALLET_PORT
  }

  function RpcPort(kind: Kind): int {
    match kind
    case NodeKind => Node.NODE_RPC_PORT
    case FarmerKind => Keyed.FARMER_RPC_PORT
    case HarvesterKind => Plot.HARVESTER_RPC_PORT
    case WalletKind => Keyed.WALLET_RPC_PORT
  }

  /** The pod's volumes; `None` when assembling them panics. */
  function Volumes(cr: CR): Option<seq<Volume>> {
    match cr.component
    case Node(_) => (match Node.NodeVolumes(cr) case None => None case Some(s) => Some(s.volumes))
    case Farmer(_, _) => Keyed.KeyedVolumes(cr)
    case Wallet(_, _) => Keyed.KeyedVolumes(cr)
    case Harvester(_) => Plot.HarvesterVolumes(cr)
  }

  function ClaimTemplates(cr: CR): seq<ClaimTemplate> {
    if cr.component.Node? && Node.NodeVolumes(cr).Some? then Node.NodeVolumes(cr).value.claims else []
  }

  function Mounts(cr: CR): seq<VolumeMount> {
    match cr.component
    case Node(_) => Node.NodeMounts()
    case Farmer(_, _) => Keyed.KeyedMounts()
    case Wallet(_, _) => Keyed.KeyedMounts()
    case Harvester(_) => Plot.HarvesterMounts(cr)
  }

  function Env(cr: CR): seq<EnvVar> {
    match cr.component
    case Node(_) => Node.NodeEnv(cr)
    case Farmer(_, _) => Keyed.KeyedEnv(cr)
    case Wallet(_, _) => Keyed.KeyedEnv(cr)
    case Harvester(_) => Plot.HarvesterEnv(cr)
  }

  function WorkloadTemplate(cr: CR, volumes: seq<Volume>): PodTemplate {
    Template(cr, Env(cr), ThreeContainerPorts(PeerPort(cr), RpcPort(KindOfCR(cr))), Mounts(cr), volumes)
  }

  /** The StatefulSet of a node, the Deployment of any other component. */
  function Workload(cr: CR): Option<Object> {
    match Volumes(cr)
    case None => None
    case Some(volumes) =>
      var meta := DerivedMeta(cr, WorkloadName(KindOfCR(cr), cr.meta.name), [cr.spec.labels]);
      if cr.component.Node? then
        Some(StatefulSet(meta, cr.component.replicas, Node.GoverningServiceName(cr.meta.name), WorkloadSelector(cr),
                         WorkloadTemplate(cr, volumes), ClaimTemplates(cr)))
      else Some(Deployment(meta, WorkloadSelector(cr), WorkloadTemplate(cr, volumes)))
  }

  // ---------- what a workload carries ----------

  function Pod(cr: CR): PodTemplate
    requires Workload(cr).Some?
  {
    Workload(cr).value.template
  }

  /** The container that runs the component. */
  function Chia(cr: CR): Container
    requires Workload(cr).Some?
  {
    Pod(cr).containers[0]
  }

  /** The claims that the workload makes for each of its pods. */
  function PodClaims(cr: CR): seq<ClaimTemplate>
    requires Workload(cr).Some?
  {
    if Workload(cr).value.StatefulSet? then Workload(cr).value.claims else []
  }

  lemma WorkloadParts(cr: CR)
    ensures Workload(cr).Some? <==> Volumes(cr).Some?
    ensures Workload(cr).Some? ==>
              && Pod(cr).volumes == Volumes(cr).value && PodClaims(cr) == ClaimTemplates(cr)
              && Pod(cr).containers == [Chia(cr), ExporterContainer(cr)]
              && Chia(cr).env == Env(cr) && Chia(cr).mounts == Mounts(cr)
              && Chia(cr).ports == ThreeContainerPorts(PeerPort(cr), RpcPort(KindOfCR(cr)))
  {
  }

  // ---------- all of a resource's objects ----------

  function AssembleBaseService(cr: CR): Object {
    BaseService(cr, PeerPort(cr), RpcPort(KindOfCR(cr)))
  }

  /** What the controller assembles and applies, one after the other. Only the last can panic. */
  function Assembled(cr: CR): (r: seq<Option<Object>>)
    ensures |r| == |DerivedKeys(CRKeyOf(cr))|
  {
    if cr.component.Node? then
      [Some(AssembleBaseService(cr)), Some(Node.InternalService(cr)), Some(Node.HeadlessService(cr)),
       Some(ExporterService(cr)), Workload(cr)]
    else
      [Some(AssembleBaseService(cr)), Some(ExporterService(cr)), Workload(cr)]
  }

  /** Where those objects live. This depends on the resource's key alone, not on its spec. */
  function DerivedKeys(k: CRKey): seq<Key> {
    var base := Key(ServiceKind, k.ns, ServiceName(BaseRole(k.kind), k.name));
    var metrics := Key(ServiceKind, k.ns, ServiceName(MetricsRole(k.kind), k.name));
    if k.kind == NodeKind then
      [base, Key(ServiceKind, k.ns, ServiceName(NodeInternal, k.name)),
       Key(ServiceKind, k.ns, ServiceName(NodeHeadless, k.name)),
       metrics, Key(StatefulSetKind, k.ns, WorkloadName(k.kind, k.name))]
    else
      [base, metrics, Key(DeploymentKind, k.ns, WorkloadName(k.kind, k.name))]
  }

  lemma AssembledAtDerivedKeys(cr: CR, j: nat)
    requires j < |Assembled(cr)| && Assembled(cr)[j].Some?
    ensures KeyOf(Assembled(cr)[j].value) == DerivedKeys(CRKeyOf(cr))[j]
  {
  }

  /** The role whose Service bears the name of what is derived at step `j`. */
  function RoleAt(kind: Kind, j: nat): ServiceRole {
    if kind == NodeKind then
      if j == 1 then NodeInternal
      else if j == 2 then NodeHeadless
      else if j == 3 then MetricsRole(kind)
      else BaseRole(kind)
    else
      if j == 1 then MetricsRole(kind) else BaseRole(kind)
  }

  lemma DerivedName(k: CRKey, j: nat)
    requires j < |DerivedKeys(k)|
    ensures DerivedKeys(k)[j].name == ServiceName(RoleAt(k.kind, j), k.name) && DerivedKeys(k)[j].ns == k.ns
    ensures ServedKind(RoleAt(k.kind, j)) == k.kind
  {
  }

  /** The two steps of one role make objects of different kinds. */
  lemma StepOfRole(k: CRKey, j: nat, j': nat)
    requires j < |DerivedKeys(k)| && j' < |DerivedKeys(k)|
    requires RoleAt(k.kind, j) == RoleAt(k.kind, j') && DerivedKeys(k)[j].kind == DerivedKeys(k)[j'].kind
    ensures j == j'
  {
  }

  /** Objects derived from different resources, or at different steps of one, never share a key. */
  lemma DerivedKeysDisjoint(k: CRKey, j: nat, k': CRKey, j': nat)
    requires j < |DerivedKeys(k)| && j' < |DerivedKeys(k')|
    requires DerivedKeys(k)[j] == DerivedKeys(k')[j']
    ensures k == k' && j == j'
  {
    DerivedName(k, j);
    DerivedName(k', j');
    ServiceNameInjective(RoleAt(k.kind, j), k.name, RoleAt(k'.kind, j'), k'.name);
    StepOfRole(k, j, j');
  }

  // ---------- the code ----------

  /** `assembleStatefulset` and `assembleDeployment`: the pod is put together by the component's own
      methods and the exporter's container is appended last. */
  method AssembleWorkload(cr: CR) returns (r: Option<Object>)
    ensures r == Workload(cr)
  {
    var volumes: Option<seq<Volume>>;
    var claims: seq<ClaimTemplate> := [];
    var env, mounts;
    match cr.component {
      case Node(_) =>
        var s := Node.GetChiaVolumesAndTemplates(cr);
        if s.None? {
          return None;
        }
        volumes, claims := Some(s.value.volumes), s.value.claims;
        env := Node.GetChiaNodeEnv(cr);
        mounts := Node.GetChiaVolumeMounts();
      case Harvester(_) =>
        volumes := Plot.GetChiaVolumes(cr);
        env := Plot.GetChiaEnv(cr);
        mounts := Plot.GetChiaVolumeMounts(cr);
      case _ =>
        volumes := Keyed.GetChiaVolumes(cr);
        env := Keyed.GetChiaEnv(cr);
        mounts := Keyed.KeyedMounts();
    }
    if volumes.None? {
      return None;
    }
    var ports := ThreeContainerPorts(PeerPort(cr), RpcPort(KindOfCR(cr)));
    var containers := [Container("chia", cr.spec.image, env, ports, mounts)];
    containers := containers + [ExporterContainer(cr)];
    var template := PodTemplate(PodLabels(cr), cr.spec.annotations, containers, cr.spec.nodeSelector, volumes.value);
    var meta := DerivedMeta(cr, WorkloadName(KindOfCR(cr), cr.meta.name), [cr.spec.labels]);
    if cr.component.Node? {
      return Some(StatefulSet(meta, cr.component.replicas, Node.GoverningServiceName(cr.meta.name),
                              WorkloadSelector(cr), template, claims));
    }
    return Some(Deployment(meta, WorkloadSelector(cr), template));
  }
}
