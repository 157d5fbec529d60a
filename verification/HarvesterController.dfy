/** chiaharvester_controller.go: the pod of a harvester. Plot volumes and their mounts are built by
    two separate pairs of loops over the same sparse lists. */
module HarvesterController {
  import opened Wrappers
  import opened Kubernetes
  import opened CustomResources
  import opened Common
  import opened KeyedControllers
  import Decimal

  const HARVESTER_PORT := 8448
  const HARVESTER_RPC_PORT := 8560
  const PVC_PREFIX := "pvc-plots-"
  const HOSTPATH_PREFIX := "hostpath-plots-"
  const PLOTS_DIR := "/plots/"

  function PlotName(prefix: string, i: nat): string {
    prefix + Decimal.Format(i)
  }

  // ---------- specification ----------

  /** One volume for each non-nil entry, in order, named by the entry's position in the list. */
  function PlotVolumes(prefix: string, xs: seq<Option<VolumeSource>>): seq<Volume> {
    if xs == [] then []
    else
      var last := |xs| - 1;
      PlotVolumes(prefix, xs[..last])
      + (if xs[last].Some? then [Volume(PlotName(prefix, last), xs[last].value)] else [])
  }

  function PlotMounts(prefix: string, xs: seq<Option<VolumeSource>>): seq<VolumeMount> {
    if xs == [] then []
    else
      var last := |xs| - 1;
      PlotMounts(prefix, xs[..last])
      + (if xs[last].Some?
         then [VolumeMount(PlotName(prefix, last), PLOTS_DIR + PlotName(prefix, last), true)] else [])
  }

  function ClaimSource(p: Option<PersistentVolumeClaimConfig>): Option<VolumeSource> {
    if p.None? then None else Some(PersistentVolumeClaim(p.value.claimName))
  }

  function HostSource(p: Option<HostPathVolumeConfig>): Option<VolumeSource> {
    if p.None? then None else Some(HostPath(p.value.path))
  }

  function ClaimSources(xs: seq<Option<PersistentVolumeClaimConfig>>): (r: seq<Option<VolumeSource>>)
    ensures |r| == |xs|
    ensures forall i :: 0 <= i < |xs| ==> r[i] == ClaimSource(xs[i])
  {
    seq(|xs|, i requires 0 <= i < |xs| => ClaimSource(xs[i]))
  }

  function HostSources(xs: seq<Option<HostPathVolumeConfig>>): (r: seq<Option<VolumeSource>>)
    ensures |r| == |xs|
    ensures forall i :: 0 <= i < |xs| ==> r[i] == HostSource(xs[i])
  {
    seq(|xs|, i requires 0 <= i < |xs| => HostSource(xs[i]))
  }

  function Plots(storage: Option<StorageConfig>): PlotsConfig {
    if storage.Some? && storage.value.plots.Some? then storage.value.plots.value else PlotsConfig(None, None)
  }

  function Claims(storage: Option<StorageConfig>): seq<Option<PersistentVolumeClaimConfig>> {
    Plots(storage).pvcs.GetOr([])
  }

  function Hosts(storage: Option<StorageConfig>): seq<Option<HostPathVolumeConfig>> {
    Plots(storage).hostPaths.GetOr([])
  }

  function HarvesterVolumes(cr: CR): Option<seq<Volume>> {
    match ChiaRootSource(cr.spec.storage)
    case None => None
    case Some(source) =>
      Some([Volume(CA_VOLUME, Secret(cr.spec.caSecretName))] + [Volume(CHIAROOT, source)]
           + PlotVolumes(PVC_PREFIX, ClaimSources(Claims(cr.spec.storage)))
           + PlotVolumes(HOSTPATH_PREFIX, HostSources(Hosts(cr.spec.storage))))
  }

  function HarvesterMounts(cr: CR): seq<VolumeMount> {
    [VolumeMount(CA_VOLUME, CA_PATH, false)] + [VolumeMount(CHIAROOT, CHIAROOT_PATH, false)]
    + PlotMounts(PVC_PREFIX, ClaimSources(Claims(cr.spec.storage)))
    + PlotMounts(HOSTPATH_PREFIX, HostSources(Hosts(cr.spec.storage)))
  }

  function HarvesterEnv(cr: CR): seq<EnvVar>
    requires cr.component.Harvester?
  {
    [EnvVar("service", "harvester"), EnvVar("CHIA_ROOT", CHIAROOT_PATH), EnvVar("ca", CA_PATH)]
    + OptionalEnv(cr.spec)
    + [EnvVar("recursive_plot_scan", "true"), EnvVar("farmer_address", cr.component.farmerAddress),
       EnvVar("farmer_port", Decimal.Format(FARMER_PORT))]
  }

  // ---------- the code ----------

  /** One more entry of a list adds its volume and mount if it is non-nil, and nothing otherwise. */
  lemma PlotsStep(prefix: string, xs: seq<Option<VolumeSource>>, i: nat)
    requires i < |xs|
    ensures PlotVolumes(prefix, xs[..i + 1]) ==
            PlotVolumes(prefix, xs[..i])
            + (if xs[i].Some? then [Volume(PlotName(prefix, i), xs[i].value)] else [])
    ensures PlotMounts(prefix, xs[..i + 1]) ==
            PlotMounts(prefix, xs[..i])
            + (if xs[i].Some?
               then [VolumeMount(PlotName(prefix, i), PLOTS_DIR + PlotName(prefix, i), true)] else [])
  {
    assert xs[..i + 1][..i] == xs[..i];
  }

  method GetChiaVolumes(cr: CR) returns (r: Option<seq<Volume>>)
    ensures r == HarvesterVolumes(cr)
  {
    var storage := cr.spec.storage;
    r := AppendChiaRoot([Volume(CA_VOLUME, Secret(cr.spec.caSecretName))], storage);
    if r.None? {
      return;
    }
    var v := r.value;
    ghost var base := v;
    ghost var claims, hosts := ClaimSources(Claims(storage)), HostSources(Hosts(storage));
    if storage.Some? && storage.value.plots.Some? {
      var plots := storage.value.plots.value;
      if plots.pvcs.Some? {
        for i := 0 to |plots.pvcs.value|
          invariant v == base + PlotVolumes(PVC_PREFIX, claims[..i])
        {
          PlotsStep(PVC_PREFIX, claims, i);
          if plots.pvcs.value[i].Some? {
            v := v + [Volume(PVC_PREFIX + Decimal.Format(i),
                             PersistentVolumeClaim(plots.pvcs.value[i].value.claimName))];
          }
        }
      }
      assert claims[..|claims|] == claims;
      assert v == base + PlotVolumes(PVC_PREFIX, claims);
      if plots.hostPaths.Some? {
        for i := 0 to |plots.hostPaths.value|
          invariant v == base + PlotVolumes(PVC_PREFIX, claims) + PlotVolumes(HOSTPATH_PREFIX, hosts[..i])
        {
          PlotsStep(HOSTPATH_PREFIX, hosts, i);
          if plots.hostPaths.value[i].Some? {
            v := v + [Volume(HOSTPATH_PREFIX + Decimal.Format(i), HostPath(plots.hostPaths.value[i].value.path))];
          }
        }
      }
      assert hosts[..|hosts|] == hosts;
    }
    assert v == HarvesterVolumes(cr).value;
    r := Some(v);
  }

  method GetChiaVolumeMounts(cr: CR) returns (v: seq<VolumeMount>)
    ensures v == HarvesterMounts(cr)
  {
    var storage := cr.spec.storage;
    v := [VolumeMount(CA_VOLUME, CA_PATH, false)];
    v := v + [VolumeMount(CHIAROOT, CHIAROOT_PATH, false)];
    ghost var base := v;
    ghost var claims, hosts := ClaimSources(Claims(storage)), HostSources(Hosts(storage));
    if storage.Some? && storage.value.plots.Some? {
      var plots := storage.value.plots.value;
      if plots.pvcs.Some? {
        for i := 0 to |plots.pvcs.value|
          invariant v == base + PlotMounts(PVC_PREFIX, claims[..i])
        {
          PlotsStep(PVC_PREFIX, claims, i);
          if plots.pvcs.value[i].Some? {
            v := v + [VolumeMount(PVC_PREFIX + Decimal.Format(i), "/plots/pvc-plots-" + Decimal.Format(i), true)];
            MountPath(PVC_PREFIX, i);
          }
        }
      }
      assert claims[..|claims|] == claims;
      assert v == base + PlotMounts(PVC_PREFIX, claims);
      if plots.hostPaths.Some? {
        for i := 0 to |plots.hostPaths.value|
          invariant v == base + PlotMounts(PVC_PREFIX, claims) + PlotMounts(HOSTPATH_PREFIX, hosts[..i])
        {
          PlotsStep(HOSTPATH_PREFIX, hosts, i);
          if plots.hostPaths.value[i].Some? {
            v := v + [VolumeMount(HOSTPATH_PREFIX + Decimal.Format(i),
                                  "/plots/hostpath-plots-" + Decimal.Format(i), true)];
            MountPath(HOSTPATH_PREFIX, i);
          }
        }
      }
      assert hosts[..|hosts|] == hosts;
    }
  }

  lemma MountPath(prefix: string, i: nat)
    ensures PLOTS_DIR + PlotName(prefix, i) == (PLOTS_DIR + prefix) + Decimal.Format(i)
    ensures PLOTS_DIR + PVC_PREFIX == "/plots/pvc-plots-"
    ensures PLOTS_DIR + HOSTPATH_PREFIX == "/plots/hostpath-plots-"
  {
  }

  method GetChiaEnv(cr: CR) returns (env: seq<EnvVar>)
    requires cr.component.Harvester?
    ensures env == HarvesterEnv(cr)
  {
    env := [EnvVar("service", "harvester")];
    env := env + [EnvVar("CHIA_ROOT", "/chia-data")];
    env := env + [EnvVar("ca", "/chia-ca")];
    env := AppendOptionalEnv(env, cr.spec);
    env := env + [EnvVar("recursive_plot_scan", "true")];
    env := env + [EnvVar("farmer_address", cr.component.farmerAddress)];
    env := env + [EnvVar("farmer_port", Decimal.Format(FARMER_PORT))];
  }
}
