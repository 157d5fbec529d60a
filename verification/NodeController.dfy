/** chianode_controller.go: the Services and the StatefulSet of a full node. */
module NodeController {
  import opened Wrappers
  import opened Kubernetes
  import opened CustomResources
  import opened Common
  import opened Names
  import opened Selection

  const MAINNET_NODE_PORT := 8444
  const TESTNET_NODE_PORT := 58444
  const NODE_RPC_PORT := 8555

  function FullNodePort(spec: Spec): int {
    if spec.testnet.Some? then
      if spec.testnet.value then TESTNET_NODE_PORT else MAINNET_NODE_PORT
    else MAINNET_NODE_PORT
  }

  function InternalService(cr: CR): Object {
    Service(DerivedMeta(cr, ServiceName(NodeInternal, cr.meta.name), [cr.spec.labels]),
            "ClusterIP", "", true, ThreePorts(FullNodePort(cr.spec), NODE_RPC_PORT), PodLabels(cr))
  }

  function HeadlessService(cr: CR): Object {
    Service(DerivedMeta(cr, ServiceName(NodeHeadless, cr.meta.name), [cr.spec.labels]),
            "ClusterIP", "None", false, ThreePorts(FullNodePort(cr.spec), NODE_RPC_PORT), PodLabels(cr))
  }

  datatype NodeStorage = NodeStorage(volumes: seq<Volume>, claims: seq<ClaimTemplate>)

  function RootClaim(storageClass: string, request: string): ClaimTemplate {
    ClaimTemplate(CHIAROOT, ["ReadWriteOnce"], storageClass, request)
  }

  /** A claim becomes a template of the StatefulSet, not a volume. A storage request that the
      quantity parser refuses makes the assembly panic, which is the outcome `None`. */
  function NodeRoot(storage: Option<StorageConfig>): Option<NodeStorage> {
    if storage.Some? && storage.value.chiaRoot.Some? then
      var root := storage.value.chiaRoot.value;
      if root.pvc.Some? then
        var request := root.pvc.value.resourceRequest;
        if request.Malformed? then None
        else Some(NodeStorage([], [RootClaim(root.pvc.value.storageClass, request.text)]))
      else if root.hostPath.Some? then Some(NodeStorage([Volume(CHIAROOT, HostPath(root.hostPath.value.path))], []))
      else Some(NodeStorage([Volume(CHIAROOT, EmptyDir)], []))
    else Some(NodeStorage([Volume(CHIAROOT, EmptyDir)], []))
  }

  function NodeVolumes(cr: CR): Option<NodeStorage> {
    match NodeRoot(cr.spec.storage)
    case None => None
    case Some(root) =>
      Some(NodeStorage([Volume(CA_VOLUME, Secret(cr.spec.caSecretName))] + root.volumes, root.claims))
  }

  function NodeMounts(): seq<VolumeMount> {
    [VolumeMount(CA_VOLUME, CA_PATH, false), VolumeMount(CHIAROOT, CHIAROOT_PATH, false)]
  }

  function NodeEnv(cr: CR): seq<EnvVar> {
    [EnvVar("service", "node"), EnvVar("CHIA_ROOT", CHIAROOT_PATH), EnvVar("keys", "none"), EnvVar("ca", CA_PATH)]
    + OptionalEnv(cr.spec)
  }

  method GetChiaVolumesAndTemplates(cr: CR) returns (r: Option<NodeStorage>)
    ensures r == NodeVolumes(cr)
  {
    var v := [Volume(CA_VOLUME, Secret(cr.spec.caSecretName))];
    var vcts: seq<ClaimTemplate> := [];
    var storage := cr.spec.storage;
    var chiaRootAdded := false;
    if storage.Some? && storage.value.chiaRoot.Some? {
      var root := storage.value.chiaRoot.value;
      if root.pvc.Some? {
        match root.pvc.value.resourceRequest
        case Malformed(_) => return None;
        case Parsable(text) =>
          vcts := vcts + [ClaimTemplate(CHIAROOT, ["ReadWriteOnce"], root.pvc.value.storageClass, text)];
          chiaRootAdded := true;
      } else if root.hostPath.Some? {
        v := v + [Volume(CHIAROOT, HostPath(root.hostPath.value.path))];
        chiaRootAdded := true;
      }
    }
    if !chiaRootAdded {
      v := v + [Volume(CHIAROOT, EmptyDir)];
    }
    assert v == NodeVolumes(cr).value.volumes && vcts == NodeVolumes(cr).value.claims;
    return Some(NodeStorage(v, vcts));
  }

  method GetChiaVolumeMounts() returns (v: seq<VolumeMount>)
    ensures v == NodeMounts()
  {
    v := [VolumeMount(CA_VOLUME, "/chia-ca", false)];
    v := v + [VolumeMount(CHIAROOT, "/chia-data", false)];
  }

  method GetChiaNodeEnv(cr: CR) returns (env: seq<EnvVar>)
    ensures env == NodeEnv(cr)
  {
    env := [EnvVar("service", "node")];
    env := env + [EnvVar("CHIA_ROOT", "/chia-data")];
    env := env + [EnvVar("keys", "none")];
    env := env + [EnvVar("ca", "/chia-ca")];
    env := AppendOptionalEnv(env, cr.spec);
  }

  // ---------- the StatefulSet's governing Service ----------

  /** The Service name that the StatefulSet refers to. */
  function GoverningServiceName(name: string): string {
    name + "-headless"
  }

  /** The reference is to a Service of this operator only when the node is called `<x>-node`, and
      then it is to the headless Service of the node called `<x>`; never to the node's own. */
  lemma GoverningServiceIff(name: string, role: ServiceRole, other: string)
    ensures GoverningServiceName(name) == ServiceName(role, other) <==>
            role == NodeHeadless && name == other + "-node"
    ensures GoverningServiceName(name) != ServiceName(NodeHeadless, name)
  {
    assert Suffix(NodeHeadless) == "-node" + "-headless";
    if GoverningServiceName(name) == ServiceName(role, other) {
      var s := GoverningServiceName(name);
      SuffixFree(other, role);
      FromEndAppend(name, "-headless", 1);
      FromEndAppend(name, "-headless", 2);
      assert role == NodeHeadless;
      assert s == other + ("-node" + "-headless") == (other + "-node") + "-headless";
      assert name == s[..|s| - 9] == other + "-node";
    }
    if role == NodeHeadless && name == other + "-node" {
      assert (other + "-node") + "-headless" == other + ("-node" + "-headless");
    }
    assert |GoverningServiceName(name)| != |ServiceName(NodeHeadless, name)|;
  }
}
