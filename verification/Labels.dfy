/** Labels of derived objects (`getCommonLabels` of every controller) and what label
    selectors built from them select. */
module Labels {
  import opened Wrappers
  import opened CustomResources
  import opened GoHeap

  const NAME_KEY := "app.kubernetes.io/name"
  const MANAGED_BY_KEY := "app.kubernetes.io/managed-by"
  const INSTANCE_KEY := "app.kubernetes.io/instance"
  const CA_OWNER_KEY := "chiaca-owner"

  /** The harvester's key is spelled with capitals in the source. */
  function OwnerKey(kind: Kind): string {
    match kind
    case NodeKind => "chianode-owner"
    case FarmerKind => "chiafarmer-owner"
    case HarvesterKind => "ChiaHarvester-owner"
    case WalletKind => "chiawallet-owner"
  }

  predicate Reserved(kind: Kind, key: string) {
    key == NAME_KEY || key == MANAGED_BY_KEY || key == INSTANCE_KEY || key == OwnerKey(kind)
  }

  function CommonLabels(labels: map<string, string>): map<string, string> {
    labels[NAME_KEY := "chia"][MANAGED_BY_KEY := "chia-operator"]
  }

  /** Later maps override earlier ones. */
  function Override(additions: seq<Option<map<string, string>>>): map<string, string> {
    if additions == [] then map[]
    else Override(additions[..|additions| - 1]) + additions[|additions| - 1].GetOr(map[])
  }

  function MergedLabels(kind: Kind, name: string, additions: seq<Option<map<string, string>>>): map<string, string> {
    CommonLabels(Override(additions)[INSTANCE_KEY := name][OwnerKey(kind) := name])
  }

  function CALabels(name: string): map<string, string> {
    CommonLabels(map[])[INSTANCE_KEY := name][CA_OWNER_KEY := name]
  }

  // ---------- the code, on Go's mutable maps ----------

  /** common_controller.go: writes into the map it was given and hands it back. */
  method GetCommonLabels(labels: GoMap) returns (r: GoMap)
    modifies labels
    ensures r == labels
    ensures labels.m == CommonLabels(old(labels.m))
  {
    labels.m := labels.m[NAME_KEY := "chia"];
    labels.m := labels.m[MANAGED_BY_KEY := "chia-operator"];
    return labels;
  }

  function Views(additions: seq<GoMap?>): (r: seq<Option<map<string, string>>>)
    reads additions
    ensures |r| == |additions|
  {
    seq(|additions|, i requires 0 <= i < |additions| reads additions => MapView(additions[i]))
  }

  /** A controller's `getCommonLabels`: whatever order each map is walked in, the result is the
      merged labels, held in a new map; the user's maps are left as they were. */
  method GetComponentLabels(kind: Kind, name: string, additions: seq<GoMap?>) returns (labels: GoMap)
    ensures fresh(labels)
    ensures labels.m == MergedLabels(kind, name, Views(additions))
  {
    labels := new GoMap();
    var views := Views(additions);
    for i := 0 to |additions|
      invariant fresh(labels)
      invariant labels.m == Override(views[..i])
      invariant views == Views(additions)
    {
      RangeInto(labels, additions[i]);
      assert views[..i + 1][..i] == views[..i];
    }
    assert views[..|additions|] == views;
    labels.m := labels.m[INSTANCE_KEY := name];
    labels.m := labels.m[OwnerKey(kind) := name];
    labels := GetCommonLabels(labels);
  }

  method GetCALabels(name: string) returns (labels: GoMap)
    ensures fresh(labels)
    ensures labels.m == CALabels(name)
  {
    labels := new GoMap();
    labels := GetCommonLabels(labels);
    labels.m := labels.m[INSTANCE_KEY := name];
    labels.m := labels.m[CA_OWNER_KEY := name];
  }

  // ---------- what the merged labels are ----------

  predicate Binds(addition: Option<map<string, string>>, key: string) {
    addition.Some? && key in addition.value
  }

  /** The last addition that binds a key decides it. */
  lemma {:induction false} LastAdditionWins(additions: seq<Option<map<string, string>>>, key: string)
    ensures key in Override(additions) <==> exists i :: 0 <= i < |additions| && Binds(additions[i], key)
    ensures forall i :: 0 <= i < |additions| && Binds(additions[i], key)
                        && (forall j :: i < j < |additions| ==> !Binds(additions[j], key))
                        ==> Override(additions)[key] == additions[i].value[key]
  {
    if additions != [] {
      var last := |additions| - 1;
      LastAdditionWins(additions[..last], key);
      assert forall i :: 0 <= i < last ==> additions[..last][i] == additions[i];
      if Binds(additions[last], key) {
        assert Override(additions)[key] == additions[last].value[key];
      }
    }
  }

  /** The reserved keys hold their fixed values whatever the user wrote, and every other key
      comes from the last map that binds it. */
  lemma MergedLabelsMeaning(kind: Kind, name: string, additions: seq<Option<map<string, string>>>, key: string)
    ensures var l := MergedLabels(kind, name, additions);
            && NAME_KEY in l && l[NAME_KEY] == "chia"
            && MANAGED_BY_KEY in l && l[MANAGED_BY_KEY] == "chia-operator"
            && INSTANCE_KEY in l && l[INSTANCE_KEY] == name
            && OwnerKey(kind) in l && l[OwnerKey(kind)] == name
    ensures var l := MergedLabels(kind, name, additions);
            !Reserved(kind, key) ==>
              && (key in l <==> exists i :: 0 <= i < |additions| && Binds(additions[i], key))
              && (forall i :: 0 <= i < |additions| && Binds(additions[i], key)
                              && (forall j :: i < j < |additions| ==> !Binds(additions[j], key))
                              ==> l[key] == additions[i].value[key])
  {
    LastAdditionWins(additions, key);
    KeysDistinct();
  }

  lemma KeysDistinct()
    ensures NAME_KEY[18] == 'n' && MANAGED_BY_KEY[18] == 'm' && INSTANCE_KEY[18] == 'i'
    ensures forall kind, kind' :: kind != kind' ==> OwnerKey(kind) != OwnerKey(kind')
    ensures forall kind :: OwnerKey(kind)[0] != 'a' && OwnerKey(kind) != CA_OWNER_KEY
    ensures CA_OWNER_KEY[0] != 'a'
    ensures NAME_KEY[0] == MANAGED_BY_KEY[0] == INSTANCE_KEY[0] == 'a'
  {
    forall kind, kind' | kind != kind' ensures OwnerKey(kind) != OwnerKey(kind') {
      assert OwnerKey(kind)[4] != OwnerKey(kind')[4];
    }
    forall kind ensures OwnerKey(kind)[0] != 'a' && OwnerKey(kind) != CA_OWNER_KEY {
      assert OwnerKey(kind)[4] != CA_OWNER_KEY[4];
    }
  }
}
