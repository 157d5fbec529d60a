/** common_controller.go, and the CHIA_ROOT volume that the farmer, harvester and wallet
    controllers build alike. */
module Common {
  import opened Wrappers
  import opened Kubernetes
  import opened CustomResources
  import opened Labels
  import opened Selection
  import opened Names

  const DAEMON_PORT := 55400
  const EXPORTER_PORT := 9914
  const DEFAULT_EXPORTER_IMAGE := "ghcr.io/chia-network/chia-exporter:latest"

  const CHIAROOT := "chiaroot"
  const CHIAROOT_PATH := "/chia-data"
  const CA_VOLUME := "secret-ca"
  const CA_PATH := "/chia-ca"

  function ExporterContainer(cr: CR): Container {
    Container("chia-exporter",
              if cr.spec.exporterImage == "" then DEFAULT_EXPORTER_IMAGE else cr.spec.exporterImage,
              [EnvVar("CHIA_ROOT", CHIAROOT_PATH)],
              [ContainerPort("metrics", EXPORTER_PORT)],
              [VolumeMount(CHIAROOT, CHIAROOT_PATH, false)])
  }

  /** Metadata of a derived object; `additions` are the label maps the user supplies. */
  function DerivedMeta(cr: CR, name: string, additions: seq<Option<StringMap>>): ObjectMeta {
    ObjectMeta(name, cr.meta.ns, MergedLabels(KindOfCR(cr), cr.meta.name, additions),
               cr.spec.annotations, OwnerReferences(cr.meta))
  }

  function ThreePorts(peers: int, rpc: int): seq<ServicePort> {
    [ServicePort(DAEMON_PORT, "daemon", "daemon"), ServicePort(peers, "peers", "peers"), ServicePort(rpc, "rpc", "rpc")]
  }

  function ThreeContainerPorts(peers: int, rpc: int): seq<ContainerPort> {
    [ContainerPort("daemon", DAEMON_PORT), ContainerPort("peers", peers), ContainerPort("rpc", rpc)]
  }

  /** The Service that every component has for its peers, under the component's own name. */
  function BaseService(cr: CR, peers: int, rpc: int): Object {
    Service(DerivedMeta(cr, ServiceName(BaseRole(KindOfCR(cr)), cr.meta.name), [cr.spec.labels]),
            cr.spec.serviceType, "", false, ThreePorts(peers, rpc), PodLabels(cr))
  }

  /** The Service that every component has for its chia-exporter. */
  function ExporterService(cr: CR): Object {
    Service(DerivedMeta(cr, ServiceName(MetricsRole(KindOfCR(cr)), cr.meta.name),
                        [cr.spec.labels, cr.spec.exporterLabels]),
            "ClusterIP", "", false, [ServicePort(EXPORTER_PORT, "metrics", "metrics")], PodLabels(cr))
  }

  /** The pod template: the chia container first, the exporter appended after it. */
  function Template(cr: CR, env: seq<EnvVar>, ports: seq<ContainerPort>, mounts: seq<VolumeMount>,
                    volumes: seq<Volume>): PodTemplate {
    PodTemplate(PodLabels(cr), cr.spec.annotations,
                [Container("chia", cr.spec.image, env, ports, mounts)] + [ExporterContainer(cr)],
                cr.spec.nodeSelector, volumes)
  }

  /** What backs CHIA_ROOT in a farmer, harvester or wallet pod. A claim beats a host path, which
      beats an empty directory. As in the source, the claim's name is read from the host path
      entry; without one that read dereferences nil, which is the outcome `None`. */
  function ChiaRootSource(storage: Option<StorageConfig>): Option<VolumeSource> {
    if storage.Some? && storage.value.chiaRoot.Some? then
      var root := storage.value.chiaRoot.value;
      if root.pvc.Some? then
        if root.hostPath.Some? then Some(PersistentVolumeClaim(root.hostPath.value.path)) else None
      else if root.hostPath.Some? then Some(HostPath(root.hostPath.value.path))
      else Some(EmptyDir)
    else Some(EmptyDir)
  }

  /** The branch on storage, with its flag. `None` is the nil dereference. */
  method AppendChiaRoot(before: seq<Volume>, storage: Option<StorageConfig>) returns (r: Option<seq<Volume>>)
    ensures r == match ChiaRootSource(storage)
                 case None => None
                 case Some(source) => Some(before + [Volume(CHIAROOT, source)])
  {
    var v := before;
    var chiaRootAdded := false;
    if storage.Some? && storage.value.chiaRoot.Some? {
      var root := storage.value.chiaRoot.value;
      if root.pvc.Some? {
        if root.hostPath.None? {
          return None;
        }
        v := v + [Volume(CHIAROOT, PersistentVolumeClaim(root.hostPath.value.path))];
        chiaRootAdded := true;
      } else if root.hostPath.Some? {
        v := v + [Volume(CHIAROOT, HostPath(root.hostPath.value.path))];
        chiaRootAdded := true;
      }
    }
    if !chiaRootAdded {
      v := v + [Volume(CHIAROOT, EmptyDir)];
    }
    return Some(v);
  }

  /** What the API documents: a claim is mounted under its own claim name. */
  function DocumentedChiaRootSource(storage: Option<StorageConfig>): VolumeSource {
    if storage.None? || storage.value.chiaRoot.None? then EmptyDir
    else
      match (storage.value.chiaRoot.value.pvc, storage.value.chiaRoot.value.hostPath)
      case (Some(claim), _) => PersistentVolumeClaim(claim.claimName)
      case (None, Some(host)) => HostPath(host.path)
      case (None, None) => EmptyDir
  }

  predicate AsksForClaim(storage: Option<StorageConfig>) {
    storage.Some? && storage.value.chiaRoot.Some? && storage.value.chiaRoot.value.pvc.Some?
  }

  /** The code mounts what the API documents exactly when no claim is asked for, or the spec also
      has a host path entry that spells the claim's name. */
  lemma ChiaRootAsDocumentedIff(storage: Option<StorageConfig>)
    ensures ChiaRootSource(storage) == Some(DocumentedChiaRootSource(storage)) <==>
            AsksForClaim(storage) ==>
              var root := storage.value.chiaRoot.value;
              root.hostPath.Some? && root.hostPath.value.path == root.pvc.value.claimName
    ensures ChiaRootSource(storage) == None <==>
            AsksForClaim(storage) && storage.value.chiaRoot.value.hostPath == None
  {
  }

  /** A claim given on its own makes the assembly fail. */
  lemma ClaimAloneFails(claim: PersistentVolumeClaimConfig)
    ensures ChiaRootSource(Some(StorageConfig(Some(ChiaRootConfig(Some(claim), None)), None))) == None
  {
  }

  // ---------- reading an environment back ----------

  /** The value a container sees for a variable that its list gives once. */
  function Lookup(env: seq<EnvVar>, name: string): Option<string> {
    if env == [] then None
    else if env[|env| - 1].name == name then Some(env[|env| - 1].value)
    else Lookup(env[..|env| - 1], name)
  }

  /** No variable is given twice. */
  predicate NamesUnique(env: seq<EnvVar>) {
    forall i, j :: 0 <= i < j < |env| ==> env[i].name != env[j].name
  }

  /** The variables that every component derives from the same three optional settings. */
  function OptionalEnv(spec: Spec): seq<EnvVar> {
    (if spec.testnet == Some(true) then [EnvVar("testnet", "true")] else [])
    + (if spec.timezone.Some? then [EnvVar("TZ", spec.timezone.value)] else [])
    + (if spec.logLevel.Some? then [EnvVar("log_level", spec.logLevel.value)] else [])
  }

  method AppendOptionalEnv(before: seq<EnvVar>, spec: Spec) returns (env: seq<EnvVar>)
    ensures env == before + OptionalEnv(spec)
  {
    env := before;
    if spec.testnet.Some? && spec.testnet.value {
      env := env + [EnvVar("testnet", "true")];
    }
    if spec.timezone.Some? {
      env := env + [EnvVar("TZ", spec.timezone.value)];
    }
    if spec.logLevel.Some? {
      env := env + [EnvVar("log_level", spec.logLevel.value)];
    }
  }
}
