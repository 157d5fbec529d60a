/** The Kubernetes objects the operator writes, with the fields it decides.
    Probes, security contexts, resources and pull policies are passed through
    untouched by the operator and are not part of this model. */
module Kubernetes {
  import opened Wrappers

  type StringMap = map<string, string>

  datatype OwnerReference =
    OwnerReference(apiVersion: string, kind: string, name: string, uid: string, controller: bool)

  datatype ObjectMeta = ObjectMeta(name: string, ns: string, labels: StringMap,
                                   annotations: Option<StringMap>, owners: seq<OwnerReference>)

  datatype ServicePort = ServicePort(port: int, targetPort: string, name: string)

  datatype VolumeSource =
    | Secret(secretName: string)
    | PersistentVolumeClaim(claimName: string)
    | HostPath(path: string)
    | EmptyDir

  datatype Volume = Volume(name: string, source: VolumeSource)
  datatype VolumeMount = VolumeMount(name: string, mountPath: string, readOnly: bool)
  datatype ClaimTemplate = ClaimTemplate(name: string, accessModes: seq<string>, storageClass: string,
                                         request: string)
  datatype EnvVar = EnvVar(name: string, value: string)
  datatype ContainerPort = ContainerPort(name: string, port: int)
  datatype Container = Container(name: string, image: string, env: seq<EnvVar>,
                                 ports: seq<ContainerPort>, mounts: seq<VolumeMount>)
  datatype PodTemplate = PodTemplate(labels: StringMap, annotations: Option<StringMap>, containers: seq<Container>,
                                     nodeSelector: Option<StringMap>, volumes: seq<Volume>)

  datatype PolicyRule = PolicyRule(apiGroups: seq<string>, resources: seq<string>, verbs: seq<string>)
  /** A subject without a namespace of its own stands for one in the binding's namespace. */
  datatype Subject = Subject(kind: string, name: string)
  datatype RoleRef = RoleRef(kind: string, name: string)

  datatype Object =
    | Service(meta: ObjectMeta, serviceType: string, clusterIP: string, localTraffic: bool,
              ports: seq<ServicePort>, selector: StringMap)
    | Deployment(meta: ObjectMeta, selector: StringMap, template: PodTemplate)
    | StatefulSet(meta: ObjectMeta, replicas: Option<int>, serviceName: string, selector: StringMap,
                  template: PodTemplate, claims: seq<ClaimTemplate>)
    | ServiceAccount(meta: ObjectMeta)
    | Role(meta: ObjectMeta, rules: seq<PolicyRule>)
    | RoleBinding(meta: ObjectMeta, subjects: seq<Subject>, roleRef: RoleRef)
    | Job(meta: ObjectMeta, restartPolicy: string, serviceAccountName: string, containerName: string, image: string,
          env: seq<EnvVar>, imagePullSecrets: seq<string>)

  datatype ObjectKind =
    ServiceKind | DeploymentKind | StatefulSetKind | ServiceAccountKind | RoleKind | RoleBindingKind | JobKind

  datatype Key = Key(kind: ObjectKind, ns: string, name: string)

  function KindOf(o: Object): ObjectKind {
    match o
    case Service(_, _, _, _, _, _) => ServiceKind
    case Deployment(_, _, _) => DeploymentKind
    case StatefulSet(_, _, _, _, _, _) => StatefulSetKind
    case ServiceAccount(_) => ServiceAccountKind
    case Role(_, _) => RoleKind
    case RoleBinding(_, _, _) => RoleBindingKind
    case Job(_, _, _, _, _, _, _) => JobKind
  }

  function KeyOf(o: Object): Key {
    Key(KindOf(o), o.meta.ns, o.meta.name)
  }
}
