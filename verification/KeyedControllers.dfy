/** chiafarmer_controller.go and chiawallet_controller.go. The two pods differ only in ports, in the
    `service` variable and in names; both mount a secret holding the mnemonic key. */
module KeyedControllers {
  import opened Wrappers
  import opened Kubernetes
  import opened CustomResources
  import opened Common

  const FARMER_PORT := 8447
  const FARMER_RPC_PORT := 8559
  const WALLET_PORT := 8449
  const WALLET_RPC_PORT := 9256

  const KEY_VOLUME := "key"
  const KEY_PATH := "/key"

  predicate Keyed(cr: CR) {
    cr.component.Farmer? || cr.component.Wallet?
  }

  function KeyedVolumes(cr: CR): Option<seq<Volume>>
    requires Keyed(cr)
  {
    match ChiaRootSource(cr.spec.storage)
    case None => None
    case Some(source) =>
      Some([Volume(CA_VOLUME, Secret(cr.spec.caSecretName)), Volume(KEY_VOLUME, Secret(cr.component.keys.name)),
            Volume(CHIAROOT, source)])
  }

  function KeyedMounts(): seq<VolumeMount> {
    [VolumeMount(CA_VOLUME, CA_PATH, false), VolumeMount(KEY_VOLUME, KEY_PATH, false),
     VolumeMount(CHIAROOT, CHIAROOT_PATH, false)]
  }

  function KeyedEnv(cr: CR): seq<EnvVar>
    requires Keyed(cr)
  {
    [EnvVar("service", if cr.component.Farmer? then "farmer-only" else "wallet"),
     EnvVar("CHIA_ROOT", CHIAROOT_PATH), EnvVar("ca", CA_PATH)]
    + OptionalEnv(cr.spec)
    + [EnvVar("keys", "/key/" + cr.component.keys.key), EnvVar("full_node_peer", cr.component.fullNodePeer)]
  }

  method GetChiaVolumes(cr: CR) returns (r: Option<seq<Volume>>)
    requires Keyed(cr)
    ensures r == KeyedVolumes(cr)
  {
    var v := [Volume(CA_VOLUME, Secret(cr.spec.caSecretName))];
    v := v + [Volume(KEY_VOLUME, Secret(cr.component.keys.name))];
    r := AppendChiaRoot(v, cr.spec.storage);
    assert r.Some? ==> r.value == KeyedVolumes(cr).value;
  }

  method GetChiaEnv(cr: CR) returns (env: seq<EnvVar>)
    requires Keyed(cr)
    ensures env == KeyedEnv(cr)
  {
    env := [EnvVar("service", if cr.component.Farmer? then "farmer-only" else "wallet")];
    env := env + [EnvVar("CHIA_ROOT", "/chia-data")];
    env := env + [EnvVar("ca", "/chia-ca")];
    env := AppendOptionalEnv(env, cr.spec);
    env := env + [EnvVar("keys", "/key/" + cr.component.keys.key)];
    env := env + [EnvVar("full_node_peer", cr.component.fullNodePeer)];
  }
}
