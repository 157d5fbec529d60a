/** The operator's custom resources (api/v1). The four component kinds share one record;
    what only one kind has is in `component`. */
module CustomResources {
  import opened Wrappers
  import opened Kubernetes

  datatype Kind = NodeKind | FarmerKind | HarvesterKind | WalletKind

  /** A storage request, sorted by whether the Kubernetes quantity parser accepts it. */
  datatype Quantity = Parsable(text: string) | Malformed(text: string)

  datatype PersistentVolumeClaimConfig =
    PersistentVolumeClaimConfig(claimName: string, storageClass: string, resourceRequest: Quantity)
  datatype HostPathVolumeConfig = HostPathVolumeConfig(path: string)

  /** Both pointers may be nil. */
  datatype ChiaRootConfig = ChiaRootConfig(pvc: Option<PersistentVolumeClaimConfig>,
                                           hostPath: Option<HostPathVolumeConfig>)

  /** Both slices may be nil, and so may each of their entries. */
  datatype PlotsConfig = PlotsConfig(pvcs: Option<seq<Option<PersistentVolumeClaimConfig>>>,
                                     hostPaths: Option<seq<Option<HostPathVolumeConfig>>>)

  datatype StorageConfig = StorageConfig(chiaRoot: Option<ChiaRootConfig>, plots: Option<PlotsConfig>)

  datatype ChiaKeysSpec = ChiaKeysSpec(name: string, key: string)

  datatype Component =
    | Node(replicas: Option<int>)
    | Farmer(keys: ChiaKeysSpec, fullNodePeer: string)
    | Harvester(farmerAddress: string)
    | Wallet(keys: ChiaKeysSpec, fullNodePeer: string)

  datatype Spec = Spec(labels: Option<StringMap>, annotations: Option<StringMap>,
                       image: string, caSecretName: string,
                       testnet: Option<bool>, timezone: Option<string>, logLevel: Option<string>,
                       exporterImage: string, exporterLabels: Option<StringMap>,
                       storage: Option<StorageConfig>, serviceType: string, nodeSelector: Option<StringMap>)

  datatype Meta = Meta(ns: string, name: string, uid: string, apiVersion: string, kind: string)

  datatype CR = CR(meta: Meta, spec: Spec, component: Component)

  datatype CRKey = CRKey(kind: Kind, ns: string, name: string)

  function KindOfCR(cr: CR): Kind {
    match cr.component
    case Node(_) => NodeKind
    case Farmer(_, _) => FarmerKind
    case Harvester(_) => HarvesterKind
    case Wallet(_, _) => WalletKind
  }

  function CRKeyOf(cr: CR): CRKey {
    CRKey(KindOfCR(cr), cr.meta.ns, cr.meta.name)
  }

  /** The ChiaCA resource, and its place in the cluster. */
  datatype ChiaCA = ChiaCA(meta: Meta, image: string, imagePullSecret: string, secret: string)
  datatype NamespacedName = NamespacedName(ns: string, name: string)

  function CAKeyOf(ca: ChiaCA): NamespacedName {
    NamespacedName(ca.meta.ns, ca.meta.name)
  }

  function OwnerReferences(meta: Meta): seq<OwnerReference> {
    [OwnerReference(meta.apiVersion, meta.kind, meta.name, meta.uid, true)]
  }
}
