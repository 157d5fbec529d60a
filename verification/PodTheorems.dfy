/** What the pods of all four components' workloads carry: mounts, what is behind them, environment. */
module PodTheorems {
  import opened Wrappers
  import opened Kubernetes
  import opened CustomResources
  import opened Common
  import opened Manifests
  import opened PlotTheorems
  import Keyed = KeyedControllers
  import Plot = HarvesterController
  import Decimal

  // ---------- mounts ----------

  /** `q` is the directory `p` or lies somewhere below it. */
  predicate AtOrBelow(p: string, q: string) {
    p <= q && (|p| == |q| || q[|p|] == '/')
  }

  /** Slashes stand at the start and, in plot paths, behind `/plots`; no path is just that long. */
  predicate MountShape(path: string) {
    && |path| != 0 && |path| != 6
    && forall t :: 0 < t < |path| && t != 6 ==> path[t] != '/'
  }

  lemma {:induction false} PlotMountShapes(p: string, xs: seq<Option<VolumeSource>>)
    requires forall t :: 0 <= t < |p| ==> p[t] != '/'
    ensures forall m :: m in Plot.PlotMounts(p, xs) ==>
              m.readOnly && MountShape(m.mountPath) && m.mountPath == Plot.PLOTS_DIR + m.name
  {
    if xs != [] {
      PlotMountShapes(p, xs[..|xs| - 1]);
      var name := Plot.PlotName(p, |xs| - 1);
      assert forall t :: 0 <= t < |name| ==> name[t] != '/';
    }
  }

  lemma PlotMountsAt(cr: CR, i: nat)
    requires 2 <= i < |Plot.HarvesterMounts(cr)|
    ensures var m := Plot.HarvesterMounts(cr)[i];
            m.readOnly && m.mountPath == Plot.PLOTS_DIR + m.name && MountShape(m.mountPath)
  {
    var claims := Plot.ClaimSources(Plot.Claims(cr.spec.storage));
    var hosts := Plot.HostSources(Plot.Hosts(cr.spec.storage));
    PlotMountShapes(Plot.PVC_PREFIX, claims);
    PlotMountShapes(Plot.HOSTPATH_PREFIX, hosts);
    var m := Plot.HarvesterMounts(cr)[i];
    assert m in Plot.PlotMounts(Plot.PVC_PREFIX, claims) || m in Plot.PlotMounts(Plot.HOSTPATH_PREFIX, hosts);
  }

  lemma MountNamesDistinct(cr: CR)
    ensures NoDuplicates(MountNames(Plot.HarvesterMounts(cr)))
  {
    var plain := cr.(spec := cr.spec.(storage := Some(StorageConfig(None, Some(Plot.Plots(cr.spec.storage))))));
    LoopsAgree(plain);
    assert Plot.HarvesterMounts(plain) == Plot.HarvesterMounts(cr);
  }

  lemma HarvesterNoShadow(cr: CR, i: nat, j: nat)
    requires i < |Plot.HarvesterMounts(cr)| && j < |Plot.HarvesterMounts(cr)| && i != j
    ensures !AtOrBelow(Plot.HarvesterMounts(cr)[i].mountPath, Plot.HarvesterMounts(cr)[j].mountPath)
  {
    var ms := Plot.HarvesterMounts(cr);
    MountNamesDistinct(cr);
    assert MountNames(ms)[i] != MountNames(ms)[j];
    assert ms[0].mountPath == CA_PATH && ms[1].mountPath == CHIAROOT_PATH;
    if i >= 2 {
      PlotMountsAt(cr, i);
      assert ms[i].mountPath[7..] == ms[i].name && ms[i].mountPath[1] == 'p';
    }
    if j >= 2 {
      PlotMountsAt(cr, j);
      assert ms[j].mountPath[7..] == ms[j].name && ms[j].mountPath[1] == 'p';
    }
  }

  /** No mount of a chia container hides another one: none is mounted at or below another's path. */
  lemma NoMountShadows(cr: CR, i: nat, j: nat)
    requires Workload(cr).Some? && i < |Chia(cr).mounts| && j < |Chia(cr).mounts| && i != j
    ensures !AtOrBelow(Chia(cr).mounts[i].mountPath, Chia(cr).mounts[j].mountPath)
  {
    WorkloadParts(cr);
    if cr.component.Harvester? {
      HarvesterNoShadow(cr, i, j);
    } else {
      assert Keyed.KEY_PATH[1] == 'k' && CA_PATH[6] == 'c' && CHIAROOT_PATH[6] == 'd';
    }
  }

  /** What a pod can write to is the CA, the key and CHIA_ROOT; all else is plots, which it can only read,
      each in a directory of its own under `/plots/`. */
  lemma PlotMountsReadOnly(cr: CR, i: nat)
    requires Workload(cr).Some? && i < |Chia(cr).mounts|
    ensures var m := Chia(cr).mounts[i];
            if m.readOnly then cr.component.Harvester? && m.mountPath == "/plots/" + m.name
            else m.mountPath == "/chia-ca" || m.mountPath == "/key" || m.mountPath == "/chia-data"
  {
    WorkloadParts(cr);
    if cr.component.Harvester? && i >= 2 {
      PlotMountsAt(cr, i);
    }
  }

  // ---------- pod closure ----------

  /** The names a container's mount can resolve to: the pod's volumes and the claims the StatefulSet
      makes for each of its pods. */
  function SourceNames(cr: CR): seq<string>
    requires Workload(cr).Some?
  {
    var claims := PodClaims(cr);
    VolumeNames(Pod(cr).volumes) + seq(|claims|, i requires 0 <= i < |claims| => claims[i].name)
  }

  /** The container's CHIA_ROOT is the path where it mounts the volume of that name. */
  predicate ChiaRootMounted(c: Container) {
    && Lookup(c.env, "CHIA_ROOT") == Some("/chia-data")
    && exists m :: m in c.mounts && m.name == "chiaroot" && m.mountPath == "/chia-data"
  }

  /** Every name a pod can mount has exactly one source; the chia container mounts each of them, in
      order, and nothing else; the exporter mounts one of them; and both look for CHIA_ROOT where they
      mount it. */
  lemma PodClosure(cr: CR)
    requires Workload(cr).Some?
    ensures NoDuplicates(SourceNames(cr)) && SourceNames(cr) == MountNames(Chia(cr).mounts)
    ensures forall c, m :: c in Pod(cr).containers && m in c.mounts ==> m.name in SourceNames(cr)
    ensures forall c :: c in Pod(cr).containers ==> ChiaRootMounted(c)
  {
    WorkloadParts(cr);
    SourcesAreMounted(cr);
    ChiaMountsRoot(cr);
    ExporterMountsRoot(cr);
    forall c, m | c in Pod(cr).containers && m in c.mounts ensures m.name in SourceNames(cr) {
      if c == Chia(cr) {
        var i :| 0 <= i < |c.mounts| && c.mounts[i] == m;
        assert MountNames(c.mounts)[i] == m.name;
      } else {
        assert MountNames(Chia(cr).mounts)[ChiaRootAt(cr)] == CHIAROOT;
      }
    }
  }

  lemma ChiaMountsRoot(cr: CR)
    requires Workload(cr).Some?
    ensures ChiaRootMounted(Chia(cr))
  {
    WorkloadParts(cr);
    HeadVariable(cr, "CHIA_ROOT");
    assert Mounts(cr)[ChiaRootAt(cr)] in Chia(cr).mounts;
  }

  lemma ExporterMountsRoot(cr: CR)
    ensures ChiaRootMounted(ExporterContainer(cr))
  {
    var e := ExporterContainer(cr);
    assert e.mounts[0] in e.mounts && e.env[..0] == [];
  }

  function ChiaRootAt(cr: CR): (i: nat)
    ensures i < |Mounts(cr)| && Mounts(cr)[i] == VolumeMount(CHIAROOT, CHIAROOT_PATH, false)
  {
    if Keyed.Keyed(cr) then 2 else 1
  }

  lemma SourcesAreMounted(cr: CR)
    requires Workload(cr).Some?
    ensures NoDuplicates(SourceNames(cr)) && SourceNames(cr) == MountNames(Chia(cr).mounts)
  {
    WorkloadParts(cr);
    var names := SourceNames(cr);
    if cr.component.Harvester? {
      VolumesAndMountsAgree(cr);
      assert names == VolumeNames(Pod(cr).volumes);
    } else if cr.component.Node? {
      assert names == [CA_VOLUME, CHIAROOT];
      assert names[0] == CA_VOLUME && names[1] == CHIAROOT;
    } else {
      assert names == [CA_VOLUME, Keyed.KEY_VOLUME, CHIAROOT];
      assert names[0] == CA_VOLUME && names[1] == Keyed.KEY_VOLUME && names[2] == CHIAROOT;
    }
  }

  // ---------- what is behind a mount ----------

  /** What the container finds at this path is this source. */
  ghost predicate Finds(cr: CR, c: Container, path: string, source: VolumeSource)
    requires Workload(cr).Some?
  {
    exists m :: m in c.mounts && m.mountPath == path && Volume(m.name, source) in Pod(cr).volumes
  }

  lemma FindsAt(cr: CR, c: Container, i: nat, j: nat)
    requires Workload(cr).Some? && i < |c.mounts| && j < |Pod(cr).volumes|
    requires c.mounts[i].name == Pod(cr).volumes[j].name
    ensures Finds(cr, c, c.mounts[i].mountPath, Pod(cr).volumes[j].source)
  {
    assert c.mounts[i] in c.mounts && Pod(cr).volumes[j] in Pod(cr).volumes;
  }

  /** Where a container is told to look for the CA it finds the Secret that the resource names. */
  lemma CAIsMounted(cr: CR)
    requires Workload(cr).Some?
    ensures Lookup(Chia(cr).env, "ca") == Some("/chia-ca")
    ensures Finds(cr, Chia(cr), "/chia-ca", Secret(cr.spec.caSecretName))
  {
    WorkloadParts(cr);
    HeadVariable(cr, "ca");
    FindsAt(cr, Chia(cr), 0, 0);
  }

  /** Where a farmer or wallet is told to look for its key it finds that key of the Secret that the
      resource names. */
  lemma KeyIsMounted(cr: CR)
    requires Workload(cr).Some? && (cr.component.Farmer? || cr.component.Wallet?)
    ensures Lookup(Chia(cr).env, "keys") == Some("/key" + "/" + cr.component.keys.key)
    ensures Finds(cr, Chia(cr), "/key", Secret(cr.component.keys.name))
  {
    WorkloadParts(cr);
    TailVariable(cr, "keys");
    assert "/key" + "/" == "/key/";
    FindsAt(cr, Chia(cr), 1, 1);
  }

  /** What the spec asks for; nil storage asks for nothing. */
  function AskedRoot(cr: CR): ChiaRootConfig {
    if cr.spec.storage.Some? then cr.spec.storage.value.chiaRoot.GetOr(ChiaRootConfig(None, None))
    else ChiaRootConfig(None, None)
  }

  /** The workload of a farmer, harvester or wallet can be assembled unless a claim comes without a host
      path entry, and both containers find at `/chia-data` the claim named by that entry; without a claim
      the host path; and without both an empty directory. */
  lemma ChiaRootIsMounted(cr: CR)
    requires !cr.component.Node?
    ensures Workload(cr) == None <==> AskedRoot(cr).pvc.Some? && AskedRoot(cr).hostPath == None
    ensures Workload(cr).Some? ==>
              forall c :: c in Pod(cr).containers ==>
                Finds(cr, c, "/chia-data",
                      match AskedRoot(cr)
                      case ChiaRootConfig(Some(_), Some(host)) => PersistentVolumeClaim(host.path)
                      case ChiaRootConfig(None, Some(host)) => HostPath(host.path)
                      case ChiaRootConfig(_, None) => EmptyDir)
  {
    WorkloadParts(cr);
    if Workload(cr).Some? {
      var at := if cr.component.Harvester? then 1 else 2;
      assert Pod(cr).volumes[at] == Volume(CHIAROOT, ChiaRootSource(cr.spec.storage).value);
      FindsAt(cr, Chia(cr), ChiaRootAt(cr), at);
      FindsAt(cr, ExporterContainer(cr), 0, at);
    }
  }

  /** The StatefulSet of a node can be assembled unless a claim's quantity is refused. It makes the claim
      that is asked for, for one pod at a time, and then the pod has no volume of that name; without a
      claim both containers find at `/chia-data` the host path, or an empty directory. */
  lemma NodeChiaRoot(cr: CR)
    requires cr.component.Node?
    ensures Workload(cr) == None <==> AskedRoot(cr).pvc.Some? && AskedRoot(cr).pvc.value.resourceRequest.Malformed?
    ensures Workload(cr).Some? && AskedRoot(cr).pvc.Some? ==>
              var claim := AskedRoot(cr).pvc.value;
              && PodClaims(cr) ==
                 [ClaimTemplate("chiaroot", ["ReadWriteOnce"], claim.storageClass, claim.resourceRequest.text)]
              && "chiaroot" !in VolumeNames(Pod(cr).volumes)
    ensures Workload(cr).Some? && AskedRoot(cr).pvc.None? ==>
              && PodClaims(cr) == []
              && forall c :: c in Pod(cr).containers ==>
                   Finds(cr, c, "/chia-data",
                         if AskedRoot(cr).hostPath.Some? then HostPath(AskedRoot(cr).hostPath.value.path) else EmptyDir)
  {
    WorkloadParts(cr);
    if Workload(cr).Some? && AskedRoot(cr).pvc.None? {
      FindsAt(cr, Chia(cr), 1, 1);
      FindsAt(cr, ExporterContainer(cr), 0, 1);
    }
  }

  // ---------- what runs ----------

  /** The pod runs the component's image and the exporter's, which has a default, where the spec says;
      and a node's StatefulSet has as many replicas as it says. */
  lemma WorkloadRuns(cr: CR)
    requires Workload(cr).Some?
    ensures |Pod(cr).containers| == 2
    ensures Pod(cr).containers[0].name == "chia" && Pod(cr).containers[0].image == cr.spec.image
    ensures Pod(cr).containers[1].name == "chia-exporter"
    ensures Pod(cr).containers[1].env == [EnvVar("CHIA_ROOT", "/chia-data")]
    ensures Pod(cr).containers[1].mounts == [VolumeMount("chiaroot", "/chia-data", false)]
    ensures Pod(cr).containers[1].image ==
            if cr.spec.exporterImage != "" then cr.spec.exporterImage
            else "ghcr.io/chia-network/chia-exporter:latest"
    ensures Pod(cr).nodeSelector == cr.spec.nodeSelector && Pod(cr).annotations == cr.spec.annotations
    ensures Workload(cr).value.StatefulSet? <==> cr.component.Node?
    ensures cr.component.Node? ==> Workload(cr).value.replicas == cr.component.replicas
  {
  }

  // ---------- environment ----------

  lemma {:induction false} LookupAppend(a: seq<EnvVar>, b: seq<EnvVar>, n: string)
    ensures Lookup(a + b, n) == if Lookup(b, n).Some? then Lookup(b, n) else Lookup(a, n)
  {
    if b == [] {
      assert a + b == a;
    } else {
      LookupAppend(a, b[..|b| - 1], n);
      assert (a + b)[..|a + b| - 1] == a + b[..|b| - 1];
    }
  }

  /** What a container is told, with an unset and a false testnet setting told alike. */
  datatype EnvConfig = EnvConfig(service: Option<string>, chiaRoot: Option<string>, ca: Option<string>,
                                 testnet: bool, timezone: Option<string>, logLevel: Option<string>,
                                 keys: Option<string>, fullNodePeer: Option<string>, plotScan: Option<string>,
                                 farmerAddress: Option<string>, farmerPort: Option<nat>)

  function Decode(env: seq<EnvVar>): EnvConfig {
    EnvConfig(Lookup(env, "service"), Lookup(env, "CHIA_ROOT"), Lookup(env, "ca"),
              Lookup(env, "testnet") == Some("true"), Lookup(env, "TZ"), Lookup(env, "log_level"),
              Lookup(env, "keys"), Lookup(env, "full_node_peer"), Lookup(env, "recursive_plot_scan"),
              Lookup(env, "farmer_address"),
              if Lookup(env, "farmer_port").Some? then Decimal.Parse(Lookup(env, "farmer_port").value) else None)
  }

  function Normalised(cr: CR): EnvConfig {
    var base := EnvConfig(None, Some("/chia-data"), Some("/chia-ca"), cr.spec.testnet == Some(true),
                          cr.spec.timezone, cr.spec.logLevel, None, None, None, None, None);
    match cr.component
    case Node(_) => base.(service := Some("node"), keys := Some("none"))
    case Farmer(keys, peer) =>
      base.(service := Some("farmer-only"), keys := Some("/key/" + keys.key), fullNodePeer := Some(peer))
    case Wallet(keys, peer) =>
      base.(service := Some("wallet"), keys := Some("/key/" + keys.key), fullNodePeer := Some(peer))
    case Harvester(address) =>
      base.(service := Some("harvester"), plotScan := Some("true"), farmerAddress := Some(address),
            farmerPort := Some(8447))
  }

  function EnvHead(cr: CR): seq<EnvVar> {
    match cr.component
    case Node(_) => [EnvVar("service", "node"), EnvVar("CHIA_ROOT", CHIAROOT_PATH), EnvVar("keys", "none"),
                     EnvVar("ca", CA_PATH)]
    case Farmer(_, _) => [EnvVar("service", "farmer-only"), EnvVar("CHIA_ROOT", CHIAROOT_PATH), EnvVar("ca", CA_PATH)]
    case Wallet(_, _) => [EnvVar("service", "wallet"), EnvVar("CHIA_ROOT", CHIAROOT_PATH), EnvVar("ca", CA_PATH)]
    case Harvester(_) => [EnvVar("service", "harvester"), EnvVar("CHIA_ROOT", CHIAROOT_PATH), EnvVar("ca", CA_PATH)]
  }

  function EnvTail(cr: CR): seq<EnvVar> {
    match cr.component
    case Node(_) => []
    case Harvester(address) =>
      [EnvVar("recursive_plot_scan", "true"), EnvVar("farmer_address", address),
       EnvVar("farmer_port", Decimal.Format(Keyed.FARMER_PORT))]
    case _ => [EnvVar("keys", "/key/" + cr.component.keys.key), EnvVar("full_node_peer", cr.component.fullNodePeer)]
  }

  lemma EnvParts(cr: CR)
    ensures Env(cr) == EnvHead(cr) + OptionalEnv(cr.spec) + EnvTail(cr)
  {
  }

  /** The variable's value in a short list, seen all at once. */
  lemma LookupShort(env: seq<EnvVar>, n: string)
    requires |env| <= 4
    ensures Lookup(env, n) ==
            if |env| > 3 && env[3].name == n then Some(env[3].value)
            else if |env| > 2 && env[2].name == n then Some(env[2].value)
            else if |env| > 1 && env[1].name == n then Some(env[1].value)
            else if |env| > 0 && env[0].name == n then Some(env[0].value)
            else None
  {
    if |env| > 0 {
      var front := env[..|env| - 1];
      assert forall i :: 0 <= i < |front| ==> front[i] == env[i];
      LookupShort(front, n);
    }
  }

  lemma OptionalLookup(spec: Spec, n: string)
    ensures Lookup(OptionalEnv(spec), n) ==
            if n == "log_level" then spec.logLevel
            else if n == "TZ" then spec.timezone
            else if n == "testnet" && spec.testnet == Some(true) then Some("true")
            else None
  {
    NamesDiffer();
    LookupShort(OptionalEnv(spec), n);
  }

  /** The variables' names, told apart. */
  lemma NamesDiffer()
    ensures "testnet"[0] == 't' && "TZ"[0] == 'T' && "log_level"[0] == 'l' && "service"[0] == 's'
    ensures "CHIA_ROOT"[0] == 'C' && "ca"[0] == 'c' && "keys"[0] == 'k' && "full_node_peer"[1] == 'u'
    ensures "farmer_address"[7] == 'a' && "farmer_port"[7] == 'p' && "recursive_plot_scan"[0] == 'r'
    ensures "full_node_peer"[0] == "farmer_address"[0] == "farmer_port"[0] == 'f'
    ensures "farmer_address"[1] == "farmer_port"[1] == 'a'
  {
  }

  /** A variable is read from the tail of the list, then from the optional part, then from its head. */
  lemma ReadVariable(cr: CR, n: string)
    ensures Lookup(Env(cr), n) ==
            if Lookup(EnvTail(cr), n).Some? then Lookup(EnvTail(cr), n)
            else if Lookup(OptionalEnv(cr.spec), n).Some? then Lookup(OptionalEnv(cr.spec), n)
            else Lookup(EnvHead(cr), n)
  {
    EnvParts(cr);
    LookupAppend(EnvHead(cr) + OptionalEnv(cr.spec), EnvTail(cr), n);
    LookupAppend(EnvHead(cr), OptionalEnv(cr.spec), n);
  }

  lemma HeadLookup(cr: CR, n: string)
    ensures Lookup(EnvHead(cr), n) ==
            if n == "ca" then Some(CA_PATH)
            else if cr.component.Node? && n == "keys" then Some("none")
            else if n == "CHIA_ROOT" then Some(CHIAROOT_PATH)
            else if n == "service" then Normalised(cr).service
            else None
  {
    LookupShort(EnvHead(cr), n);
  }

  lemma TailLookup(cr: CR, n: string)
    ensures Lookup(EnvTail(cr), n) ==
            if Keyed.Keyed(cr) then
              if n == "full_node_peer" then Normalised(cr).fullNodePeer
              else if n == "keys" then Normalised(cr).keys
              else None
            else if cr.component.Harvester? then
              if n == "farmer_port" then Some(Decimal.Format(Keyed.FARMER_PORT))
              else if n == "farmer_address" then Normalised(cr).farmerAddress
              else if n == "recursive_plot_scan" then Some("true")
              else None
            else None
  {
    LookupShort(EnvTail(cr), n);
  }

  lemma HeadVariable(cr: CR, n: string)
    ensures n == "service" ==> Lookup(Env(cr), n) == Normalised(cr).service
    ensures n == "CHIA_ROOT" ==> Lookup(Env(cr), n) == Some(CHIAROOT_PATH)
    ensures n == "ca" ==> Lookup(Env(cr), n) == Some(CA_PATH)
  {
    NamesDiffer();
    ReadVariable(cr, n);
    OptionalLookup(cr.spec, n);
    TailLookup(cr, n);
    HeadLookup(cr, n);
  }

  lemma OptionalVariable(cr: CR, n: string)
    requires n == "testnet" || n == "TZ" || n == "log_level"
    ensures Lookup(Env(cr), n) == Lookup(OptionalEnv(cr.spec), n)
  {
    NamesDiffer();
    ReadVariable(cr, n);
    TailLookup(cr, n);
    HeadLookup(cr, n);
  }

  lemma TailVariable(cr: CR, n: string)
    ensures n == "keys" ==> Lookup(Env(cr), n) == Normalised(cr).keys
    ensures n == "full_node_peer" ==> Lookup(Env(cr), n) == Normalised(cr).fullNodePeer
    ensures n == "recursive_plot_scan" ==> Lookup(Env(cr), n) == Normalised(cr).plotScan
    ensures n == "farmer_address" ==> Lookup(Env(cr), n) == Normalised(cr).farmerAddress
    ensures n == "farmer_port" ==>
              Lookup(Env(cr), n) == if cr.component.Harvester? then Some(Decimal.Format(Keyed.FARMER_PORT)) else None
  {
    NamesDiffer();
    ReadVariable(cr, n);
    OptionalLookup(cr.spec, n);
    TailLookup(cr, n);
    HeadLookup(cr, n);
  }

  predicate StartIn(cs: set<char>, env: seq<EnvVar>) {
    forall v :: v in env ==> |v.name| > 0 && v.name[0] in cs
  }

  lemma UniqueAppend(a: seq<EnvVar>, cs: set<char>, b: seq<EnvVar>, ds: set<char>)
    requires NamesUnique(a) && NamesUnique(b) && StartIn(cs, a) && StartIn(ds, b) && cs !! ds
    ensures NamesUnique(a + b) && StartIn(cs + ds, a + b)
  {
    forall i, j | 0 <= i < j < |a + b| ensures (a + b)[i].name != (a + b)[j].name {
      if i < |a| <= j {
        assert (a + b)[i] in a && (a + b)[j] in b;
      }
    }
  }

  function HeadStarts(cr: CR): set<char> {
    if cr.component.Node? then {'s', 'C', 'c', 'k'} else {'s', 'C', 'c'}
  }

  function TailStarts(cr: CR): set<char> {
    if cr.component.Node? then {} else {'r', 'f', 'k'}
  }

  lemma HeadNames(cr: CR)
    ensures NamesUnique(EnvHead(cr)) && StartIn(HeadStarts(cr), EnvHead(cr))
  {
    NamesDiffer();
  }

  lemma OptionalNames(spec: Spec)
    ensures NamesUnique(OptionalEnv(spec)) && StartIn({'t', 'T', 'l'}, OptionalEnv(spec))
  {
    NamesDiffer();
  }

  lemma TailNames(cr: CR)
    ensures NamesUnique(EnvTail(cr)) && StartIn(TailStarts(cr), EnvTail(cr))
  {
    NamesDiffer();
  }

  lemma UniqueInThree(a: seq<EnvVar>, cs: set<char>, b: seq<EnvVar>, ds: set<char>, c: seq<EnvVar>, es: set<char>)
    requires NamesUnique(a) && NamesUnique(b) && NamesUnique(c)
    requires StartIn(cs, a) && StartIn(ds, b) && StartIn(es, c) && cs !! ds && cs !! es && ds !! es
    ensures NamesUnique(a + b + c)
  {
    UniqueAppend(a, cs, b, ds);
    UniqueAppend(a + b, cs + ds, c, es);
  }

  predicate Known(name: string) {
    || name == "service" || name == "CHIA_ROOT" || name == "ca" || name == "testnet" || name == "TZ"
    || name == "log_level" || name == "keys" || name == "full_node_peer" || name == "recursive_plot_scan"
    || name == "farmer_address" || name == "farmer_port"
  }

  predicate AllKnown(env: seq<EnvVar>) {
    forall v :: v in env ==> Known(v.name)
  }

  lemma HeadKnown(cr: CR)
    ensures AllKnown(EnvHead(cr))
  {
  }

  lemma OptionalKnown(spec: Spec)
    ensures AllKnown(OptionalEnv(spec))
  {
  }

  lemma TailKnown(cr: CR)
    ensures AllKnown(EnvTail(cr))
  {
  }

  lemma KnownInThree(a: seq<EnvVar>, b: seq<EnvVar>, c: seq<EnvVar>)
    requires AllKnown(a) && AllKnown(b) && AllKnown(c)
    ensures AllKnown(a + b + c)
  {
  }

  lemma StartsApart(cr: CR)
    ensures HeadStarts(cr) !! {'t', 'T', 'l'} && HeadStarts(cr) !! TailStarts(cr) && {'t', 'T', 'l'} !! TailStarts(cr)
  {
  }

  lemma PartsUnique(cr: CR)
    ensures NamesUnique(EnvHead(cr) + OptionalEnv(cr.spec) + EnvTail(cr))
  {
    HeadNames(cr);
    OptionalNames(cr.spec);
    TailNames(cr);
    StartsApart(cr);
    UniqueInThree(EnvHead(cr), HeadStarts(cr), OptionalEnv(cr.spec), {'t', 'T', 'l'}, EnvTail(cr), TailStarts(cr));
  }

  /** The chia container's list names each variable once, and none but the eleven that are read from it. */
  lemma EnvNamesUnique(cr: CR)
    requires Workload(cr).Some?
    ensures NamesUnique(Chia(cr).env) && AllKnown(Chia(cr).env)
  {
    WorkloadParts(cr);
    EnvParts(cr);
    PartsUnique(cr);
    HeadKnown(cr);
    OptionalKnown(cr.spec);
    TailKnown(cr);
    KnownInThree(EnvHead(cr), OptionalEnv(cr.spec), EnvTail(cr));
  }

  lemma OptionalDecodes(cr: CR)
    ensures (Lookup(Env(cr), "testnet") == Some("true")) == (cr.spec.testnet == Some(true))
    ensures Lookup(Env(cr), "TZ") == cr.spec.timezone && Lookup(Env(cr), "log_level") == cr.spec.logLevel
  {
    NamesDiffer();
    OptionalVariable(cr, "testnet");
    OptionalVariable(cr, "TZ");
    OptionalVariable(cr, "log_level");
    OptionalLookup(cr.spec, "testnet");
    OptionalLookup(cr.spec, "TZ");
    OptionalLookup(cr.spec, "log_level");
  }

  lemma TailDecodes(cr: CR)
    ensures Lookup(Env(cr), "keys") == Normalised(cr).keys
    ensures Lookup(Env(cr), "full_node_peer") == Normalised(cr).fullNodePeer
    ensures Lookup(Env(cr), "recursive_plot_scan") == Normalised(cr).plotScan
    ensures Lookup(Env(cr), "farmer_address") == Normalised(cr).farmerAddress
    ensures Lookup(Env(cr), "farmer_port") ==
            if cr.component.Harvester? then Some(Decimal.Format(Keyed.FARMER_PORT)) else None
  {
    TailVariable(cr, "keys");
    TailVariable(cr, "full_node_peer");
    TailVariable(cr, "recursive_plot_scan");
    TailVariable(cr, "farmer_address");
    TailVariable(cr, "farmer_port");
  }

  /** The chia container's environment decodes to the settings it was made from, for all strings in them. */
  lemma EnvRoundTrip(cr: CR)
    requires Workload(cr).Some?
    ensures Decode(Chia(cr).env) == Normalised(cr)
  {
    WorkloadParts(cr);
    HeadVariable(cr, "service");
    HeadVariable(cr, "CHIA_ROOT");
    HeadVariable(cr, "ca");
    OptionalDecodes(cr);
    TailDecodes(cr);
    Decimal.RoundTrip(Keyed.FARMER_PORT);
  }
}
