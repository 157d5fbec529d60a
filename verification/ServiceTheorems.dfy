/** What a resource's objects are called, whom they belong to, what they select, and where its Services lead. */
module ServiceTheorems {
  import opened Wrappers
  import opened Kubernetes
  import opened CustomResources
  import opened Names
  import opened Common
  import opened Manifests
  import opened Labels
  import opened Selection
  import opened PodTheorems
  import Node = NodeController
  import Keyed = KeyedControllers
  import Decimal

  // ---------- names ----------

  /** The name that the workload and the Service for peers share. */
  function BaseName(cr: CR): string {
    cr.meta.name + match cr.component
                   case Node(_) => "-node"
                   case Farmer(_, _) => "-farmer"
                   case Harvester(_) => "-harvester"
                   case Wallet(_, _) => "-wallet"
  }

  function MetricsName(cr: CR): string {
    cr.meta.name + match cr.component
                   case Node(_) => "-node-metrics"
                   case Farmer(_, _) => "-farmer-metrics"
                   case Harvester(_) => "-harvester-metrics"
                   case Wallet(_, _) => "-wallet-metrics"
  }

  /** What the controller assembles at step `j`. */
  function ServiceAt(cr: CR, j: nat): (o: Object)
    requires j < |Assembled(cr)| - 1
    ensures o.Service?
  {
    Assembled(cr)[j].value
  }

  /** A resource's Services, and its workload last. */
  lemma ObjectNames(cr: CR)
    ensures |Assembled(cr)| == if cr.component.Node? then 5 else 3
    ensures ServiceAt(cr, 0).meta.name == BaseName(cr)
    ensures ServiceAt(cr, |Assembled(cr)| - 2).meta.name == MetricsName(cr)
    ensures cr.component.Node? ==>
              && ServiceAt(cr, 1).meta.name == cr.meta.name + "-node-internal"
              && ServiceAt(cr, 2).meta.name == cr.meta.name + "-node-headless"
    ensures Assembled(cr)[|Assembled(cr)| - 1] == Workload(cr)
    ensures Workload(cr).Some? ==> Workload(cr).value.meta.name == BaseName(cr)
  {
  }

  /** The names of a resource's Services, as this operator names Services by their roles. */
  lemma RoleNames(cr: CR)
    ensures BaseName(cr) == ServiceName(BaseRole(KindOfCR(cr)), cr.meta.name)
    ensures MetricsName(cr) == ServiceName(MetricsRole(KindOfCR(cr)), cr.meta.name)
  {
  }

  lemma ServiceIsNamed(cr: CR, j: nat, role: ServiceRole)
    requires j < |Assembled(cr)| - 1
    ensures ServiceAt(cr, j).meta.name == ServiceName(role, cr.meta.name) <==> role == RoleAt(KindOfCR(cr), j)
  {
    AssembledAtDerivedKeys(cr, j);
    DerivedName(CRKeyOf(cr), j);
    if ServiceAt(cr, j).meta.name == ServiceName(role, cr.meta.name) {
      ServiceNameInjective(role, cr.meta.name, RoleAt(KindOfCR(cr), j), cr.meta.name);
    }
  }

  // ---------- how the Services are reached ----------

  /** Of a resource's Services only the one for peers has the type that the spec asks for; only a node's
      headless one has no address, and only its internal one keeps traffic on its machine. */
  lemma ServiceKinds(cr: CR, j: nat)
    requires j < |Assembled(cr)| - 1
    ensures var o := ServiceAt(cr, j);
            && o.serviceType == (if o.meta.name == BaseName(cr) then cr.spec.serviceType else "ClusterIP")
            && o.clusterIP ==
               (if cr.component.Node? && o.meta.name == cr.meta.name + "-node-headless" then "None" else "")
            && (o.localTraffic <==> cr.component.Node? && o.meta.name == cr.meta.name + "-node-internal")
  {
    RoleNames(cr);
    ServiceIsNamed(cr, j, BaseRole(KindOfCR(cr)));
    ServiceIsNamed(cr, j, NodeHeadless);
    ServiceIsNamed(cr, j, NodeInternal);
  }

  /** The ports for peers and for RPC. */
  function PeersAndRpc(cr: CR): (int, int) {
    match cr.component
    case Node(_) => (if cr.spec.testnet == Some(true) then 58444 else 8444, 8555)
    case Farmer(_, _) => (8447, 8559)
    case Harvester(_) => (8448, 8560)
    case Wallet(_, _) => (8449, 9256)
  }

  /** Every Service offers the daemon, the peers and the RPC at their ports, but for the one for metrics,
      which offers these. */
  lemma ServicePorts(cr: CR, j: nat)
    requires j < |Assembled(cr)| - 1
    ensures ServiceAt(cr, j).ports ==
            if ServiceAt(cr, j).meta.name == MetricsName(cr) then [ServicePort(9914, "metrics", "metrics")]
            else [ServicePort(55400, "daemon", "daemon"), ServicePort(PeersAndRpc(cr).0, "peers", "peers"),
                  ServicePort(PeersAndRpc(cr).1, "rpc", "rpc")]
  {
    RoleNames(cr);
    ServiceIsNamed(cr, j, MetricsRole(KindOfCR(cr)));
  }

  /** Some container of the pod listens where the Service sends what comes in on this port. */
  predicate Reaches(p: ServicePort, pod: PodTemplate) {
    exists c, q :: c in pod.containers && q in c.ports && q.name == p.targetPort && q.port == p.port
  }

  lemma ReachesAt(p: ServicePort, pod: PodTemplate, c: nat, q: nat)
    requires c < |pod.containers| && q < |pod.containers[c].ports|
    requires pod.containers[c].ports[q] == ContainerPort(p.targetPort, p.port)
    ensures Reaches(p, pod)
  {
    assert pod.containers[c] in pod.containers && pod.containers[c].ports[q] in pod.containers[c].ports;
  }

  lemma PodPorts(cr: CR)
    requires Workload(cr).Some?
    ensures |Pod(cr).containers| == 2
    ensures Pod(cr).containers[0].ports ==
            [ContainerPort("daemon", 55400), ContainerPort("peers", PeersAndRpc(cr).0),
             ContainerPort("rpc", PeersAndRpc(cr).1)]
    ensures Pod(cr).containers[1].ports == [ContainerPort("metrics", 9914)]
  {
    WorkloadParts(cr);
  }

  /** Ports that one container of the pod listens on, each under the name that the Service sends it to. */
  lemma AllReach(ports: seq<ServicePort>, pod: PodTemplate, c: nat)
    requires c < |pod.containers| && |pod.containers[c].ports| == |ports|
    requires forall i :: 0 <= i < |ports| ==>
               pod.containers[c].ports[i] == ContainerPort(ports[i].targetPort, ports[i].port)
    ensures forall p :: p in ports ==> Reaches(p, pod)
  {
    forall p | p in ports ensures Reaches(p, pod) {
      var i :| 0 <= i < |ports| && ports[i] == p;
      ReachesAt(p, pod, c, i);
    }
  }

  lemma PortsReach(ports: seq<ServicePort>, pod: PodTemplate, own: (int, int))
    requires ports == [ServicePort(9914, "metrics", "metrics")]
             || ports == [ServicePort(55400, "daemon", "daemon"), ServicePort(own.0, "peers", "peers"),
                          ServicePort(own.1, "rpc", "rpc")]
    requires |pod.containers| == 2 && pod.containers[1].ports == [ContainerPort("metrics", 9914)]
    requires pod.containers[0].ports ==
             [ContainerPort("daemon", 55400), ContainerPort("peers", own.0), ContainerPort("rpc", own.1)]
    ensures forall p :: p in ports ==> Reaches(p, pod)
  {
    AllReach(ports, pod, if |ports| == 1 then 1 else 0);
  }

  /** Every port of every Service of a resource leads to a port of that number in its pods. */
  lemma PortsResolve(cr: CR, j: nat)
    requires Workload(cr).Some? && j < |Assembled(cr)| - 1
    ensures forall p :: p in ServiceAt(cr, j).ports ==> Reaches(p, Pod(cr))
  {
    PodPorts(cr);
    ServicePorts(cr, j);
    PortsReach(ServiceAt(cr, j).ports, Pod(cr), PeersAndRpc(cr));
  }

  /** A node's container is told `testnet` exactly if it listens, and all its Services but the one for
      metrics offer its peers, at the testnet's port. */
  lemma NodePortsAgree(cr: CR, j: nat)
    requires cr.component.Node? && Workload(cr).Some? && j < |Assembled(cr)| - 1
    ensures var port := if Lookup(Chia(cr).env, "testnet").Some? then 58444 else 8444;
            && Chia(cr).ports[1] == ContainerPort("peers", port)
            && (ServiceAt(cr, j).meta.name != MetricsName(cr) ==>
                  ServiceAt(cr, j).ports[1] == ServicePort(port, "peers", "peers"))
  {
    WorkloadParts(cr);
    PodPorts(cr);
    ServicePorts(cr, j);
    OptionalVariable(cr, "testnet");
    OptionalLookup(cr.spec, "testnet");
  }

  /** The port a harvester is told is the one every farmer's Service offers its peers. */
  lemma FarmerPortAgrees(harvester: CR, farmer: CR)
    requires harvester.component.Harvester? && farmer.component.Farmer? && Workload(harvester).Some?
    ensures Lookup(Chia(harvester).env, "farmer_port") == Some("8447")
    ensures Decode(Chia(harvester).env).farmerPort == Some(8447)
    ensures ServiceAt(farmer, 0).meta.name == BaseName(farmer)
    ensures ServiceAt(farmer, 0).ports[1] == ServicePort(8447, "peers", "peers")
  {
    EnvRoundTrip(harvester);
    WorkloadParts(harvester);
    TailVariable(harvester, "farmer_port");
    FarmerPortText();
    ServicePorts(farmer, 0);
    ObjectNames(farmer);
  }

  lemma FarmerPortText()
    ensures Decimal.Format(Keyed.FARMER_PORT) == "8447"
  {
    assert Decimal.Format(84) == Decimal.Format(8) + [Decimal.Digit(4)] == "84";
    assert Decimal.Format(844) == Decimal.Format(84) + [Decimal.Digit(4)] == "844";
    assert Decimal.Format(8447) == Decimal.Format(844) + [Decimal.Digit(7)] == "8447";
  }

  /** The Service that a node's StatefulSet names as its governing one is a Service of this operator only
      if the node is called `<x>-node`, and then it is the headless one of the node called `<x>`. */
  lemma GoverningServiceOf(cr: CR, other: CR, j: nat)
    requires cr.component.Node? && Workload(cr).Some? && j < |Assembled(other)| - 1
    ensures Workload(cr).value.StatefulSet?
    ensures Workload(cr).value.serviceName == ServiceAt(other, j).meta.name <==>
            other.component.Node? && j == 2 && cr.meta.name == other.meta.name + "-node"
  {
    AssembledAtDerivedKeys(other, j);
    DerivedName(CRKeyOf(other), j);
    Node.GoverningServiceIff(cr.meta.name, RoleAt(KindOfCR(other), j), other.meta.name);
  }

  // ---------- whose the objects are ----------

  /** Every derived object belongs to its resource: same namespace and annotations, and the resource as
      its one, controlling owner. */
  lemma ObjectsBelong(cr: CR, j: nat)
    requires j < |Assembled(cr)| && Assembled(cr)[j].Some?
    ensures var meta := Assembled(cr)[j].value.meta;
            && meta.ns == cr.meta.ns && meta.annotations == cr.spec.annotations
            && |meta.owners| == 1 && meta.owners[0].controller
            && var owner := meta.owners[0];
               Meta(cr.meta.ns, owner.name, owner.uid, owner.apiVersion, owner.kind) == cr.meta
  {
    assert Assembled(cr)[j].value.meta.owners == OwnerReferences(cr.meta);
  }

  /** The key under which an object names the resource that owns it. */
  function OwnerLabel(cr: CR): string {
    match cr.component
    case Node(_) => "chianode-owner"
    case Farmer(_, _) => "chiafarmer-owner"
    case Harvester(_) => "ChiaHarvester-owner"
    case Wallet(_, _) => "chiawallet-owner"
  }

  /** The labels that no user decides. */
  function FixedLabels(cr: CR): map<string, string> {
    map["app.kubernetes.io/name" := "chia", "app.kubernetes.io/managed-by" := "chia-operator",
        "app.kubernetes.io/instance" := cr.meta.name, OwnerLabel(cr) := cr.meta.name]
  }

  lemma FixedAreReserved(cr: CR, key: string)
    ensures WorkloadSelector(cr) == FixedLabels(cr)
    ensures key in FixedLabels(cr) <==> Reserved(KindOfCR(cr), key)
  {
    WorkloadSelectorKeys(cr);
  }

  /** Beyond the fixed ones the labels are the user's, of two maps the second winning. */
  ghost predicate LabelsFrom(labels: StringMap, cr: CR, first: Option<StringMap>, second: Option<StringMap>) {
    && Matches(FixedLabels(cr), labels)
    && forall key :: key !in FixedLabels(cr) ==>
         && (key in labels <==> Binds(first, key) || Binds(second, key))
         && (key in labels ==> labels[key] == if Binds(second, key) then second.value[key] else first.value[key])
  }

  /** What holds of one key. */
  lemma TwoAdditions(cr: CR, a: Option<StringMap>, b: Option<StringMap>, key: string)
    ensures var labels := MergedLabels(KindOfCR(cr), cr.meta.name, [a, b]);
            && (key in FixedLabels(cr) ==> key in labels && labels[key] == FixedLabels(cr)[key])
            && (key !in FixedLabels(cr) ==>
                  && (key in labels <==> Binds(a, key) || Binds(b, key))
                  && (key in labels ==> labels[key] == if Binds(b, key) then b.value[key] else a.value[key]))
  {
    var both := [a, b];
    FixedAreReserved(cr, key);
    MergedLabelsMeaning(KindOfCR(cr), cr.meta.name, both, key);
    assert both[0] == a && both[1] == b;
    if Binds(b, key) {
      assert Binds(both[1], key);
    } else if Binds(a, key) {
      assert Binds(both[0], key);
    }
  }

  lemma ExporterLabels(cr: CR)
    ensures LabelsFrom(ExporterService(cr).meta.labels, cr, cr.spec.labels, cr.spec.exporterLabels)
  {
    forall key {
      TwoAdditions(cr, cr.spec.labels, cr.spec.exporterLabels, key);
    }
  }

  lemma UserLabels(cr: CR)
    ensures LabelsFrom(PodLabels(cr), cr, cr.spec.labels, None)
  {
    SelectsOwnPods(cr);
    FixedAreReserved(cr, "");
    forall key | key !in FixedLabels(cr)
      ensures key in PodLabels(cr) <==> Binds(cr.spec.labels, key)
      ensures key in PodLabels(cr) ==> PodLabels(cr)[key] == cr.spec.labels.value[key]
    {
      FixedAreReserved(cr, key);
      PodLabel(cr, key);
    }
  }

  /** Every derived object, and every pod, bears the fixed labels and the user's; the Service for metrics
      those for it besides, which win. */
  lemma ObjectLabels(cr: CR, j: nat)
    requires j < |Assembled(cr)| && Assembled(cr)[j].Some?
    ensures var meta := Assembled(cr)[j].value.meta;
            LabelsFrom(meta.labels, cr, cr.spec.labels,
                       if meta.name == MetricsName(cr) then cr.spec.exporterLabels else None)
    ensures Workload(cr).Some? ==> LabelsFrom(Pod(cr).labels, cr, cr.spec.labels, None)
  {
    ExporterLabels(cr);
    UserLabels(cr);
    if j < |Assembled(cr)| - 1 {
      ServiceLabels(cr, j);
    } else {
      WorkloadLabels(cr);
    }
    if Workload(cr).Some? {
      PodIsLabelled(cr);
    }
  }

  lemma ServiceLabels(cr: CR, j: nat)
    requires j < |Assembled(cr)| - 1
    ensures var meta := ServiceAt(cr, j).meta;
            meta.labels == if meta.name == MetricsName(cr) then ExporterService(cr).meta.labels else PodLabels(cr)
  {
    RoleNames(cr);
    ServiceIsNamed(cr, j, MetricsRole(KindOfCR(cr)));
  }

  lemma WorkloadLabels(cr: CR)
    ensures Assembled(cr)[|Assembled(cr)| - 1] == Workload(cr)
    ensures Workload(cr).Some? ==>
              Workload(cr).value.meta.labels == PodLabels(cr) && Workload(cr).value.meta.name != MetricsName(cr)
  {
    RoleNames(cr);
    ObjectNames(cr);
    if BaseName(cr) == MetricsName(cr) {
      ServiceNameInjective(BaseRole(KindOfCR(cr)), cr.meta.name, MetricsRole(KindOfCR(cr)), cr.meta.name);
    }
  }

  lemma PodIsLabelled(cr: CR)
    requires Workload(cr).Some?
    ensures Pod(cr).labels == PodLabels(cr)
  {
  }

  /** All of a resource's Services select by its pods' labels; its workload selects by the fixed ones,
      which no edit of the spec changes, and so selects its own pods. */
  lemma SelectorsFit(cr: CR, j: nat)
    requires Workload(cr).Some? && j < |Assembled(cr)| - 1
    ensures ServiceAt(cr, j).selector == Pod(cr).labels
    ensures Workload(cr).value.selector == FixedLabels(cr) && Matches(Workload(cr).value.selector, Pod(cr).labels)
  {
    UserLabels(cr);
    FixedAreReserved(cr, "");
    SelectorParts(cr, j);
  }

  lemma SelectorParts(cr: CR, j: nat)
    requires Workload(cr).Some? && j < |Assembled(cr)| - 1
    ensures ServiceAt(cr, j).selector == Pod(cr).labels == PodLabels(cr)
    ensures Workload(cr).value.selector == WorkloadSelector(cr)
  {
  }
}
