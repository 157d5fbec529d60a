/** Which pods the operator's selectors select. */
module Selection {
  import opened CustomResources
  import opened Labels

  /** Kubernetes' equality-based selection. */
  predicate Matches(selector: map<string, string>, labels: map<string, string>) {
    forall k :: k in selector ==> k in labels && labels[k] == selector[k]
  }

  function WorkloadSelector(cr: CR): map<string, string> {
    MergedLabels(KindOfCR(cr), cr.meta.name, [])
  }

  function PodLabels(cr: CR): map<string, string> {
    MergedLabels(KindOfCR(cr), cr.meta.name, [cr.spec.labels])
  }

  /** A user label that claims a resource of the given kind and name as its owner. */
  predicate ClaimsOwner(cr: CR, kind: Kind, name: string) {
    cr.spec.labels.Some? && OwnerKey(kind) in cr.spec.labels.value && cr.spec.labels.value[OwnerKey(kind)] == name
  }

  /** A workload's selector holds exactly the four reserved keys, so no edit of the spec changes it. */
  lemma WorkloadSelectorKeys(cr: CR)
    ensures WorkloadSelector(cr) ==
            map[INSTANCE_KEY := cr.meta.name, OwnerKey(KindOfCR(cr)) := cr.meta.name,
                NAME_KEY := "chia", MANAGED_BY_KEY := "chia-operator"]
  {
  }

  lemma PodLabel(cr: CR, key: string)
    ensures Reserved(KindOfCR(cr), key) ==>
              key in PodLabels(cr) && key in WorkloadSelector(cr) && PodLabels(cr)[key] == WorkloadSelector(cr)[key]
    ensures !Reserved(KindOfCR(cr), key) ==>
              && (key in PodLabels(cr) <==> Binds(cr.spec.labels, key))
              && (Binds(cr.spec.labels, key) ==> PodLabels(cr)[key] == cr.spec.labels.value[key])
  {
    MergedLabelsMeaning(KindOfCR(cr), cr.meta.name, [cr.spec.labels], key);
    assert [cr.spec.labels][0] == cr.spec.labels;
    if !Reserved(KindOfCR(cr), key) && Binds(cr.spec.labels, key) {
      assert Binds([cr.spec.labels][0], key);
    }
  }

  /** A workload selects its own pods, whatever labels the user adds. */
  lemma SelectsOwnPods(cr: CR)
    ensures Matches(WorkloadSelector(cr), PodLabels(cr))
  {
    forall k | k in WorkloadSelector(cr) ensures k in PodLabels(cr) && PodLabels(cr)[k] == WorkloadSelector(cr)[k] {
      WorkloadSelectorKeys(cr);
      PodLabel(cr, k);
    }
  }

  /** A workload's selector matches the pods of another resource exactly when the two have one name
      and are of one kind, or the other one's user labels claim this one as their owner. */
  lemma SelectsIff(a: CR, b: CR)
    ensures Matches(WorkloadSelector(a), PodLabels(b)) <==>
            && a.meta.name == b.meta.name
            && (KindOfCR(a) == KindOfCR(b) || ClaimsOwner(b, KindOfCR(a), a.meta.name))
  {
    var owner := OwnerKey(KindOfCR(a));
    KeysDistinct();
    WorkloadSelectorKeys(a);
    WorkloadSelectorKeys(b);
    PodLabel(b, INSTANCE_KEY);
    PodLabel(b, NAME_KEY);
    PodLabel(b, MANAGED_BY_KEY);
    PodLabel(b, owner);
    assert WorkloadSelector(a)[INSTANCE_KEY] == a.meta.name;
    assert WorkloadSelector(a)[owner] == a.meta.name;
  }

  /** A Service selects by its resource's pod labels. It always selects its own pods, and it selects
      no pod that the workload's selector would not select too. */
  lemma ServiceSelectsNoMore(a: CR, b: CR)
    ensures Matches(PodLabels(a), PodLabels(a))
    ensures Matches(PodLabels(a), PodLabels(b)) ==> Matches(WorkloadSelector(a), PodLabels(b))
  {
    SelectsOwnPods(a);
  }
}
