/** The objects that the ChiaCA controller assembles, and what they let the generator's pods do. */
module GeneratorObjects {
  import opened Wrappers
  import opened Kubernetes
  import opened CustomResources
  import opened Names
  import Labels

  function GeneratorMeta(ca: ChiaCA, name: string): ObjectMeta {
    ObjectMeta(name, ca.meta.ns, Labels.CALabels(ca.meta.name), None, OwnerReferences(ca.meta))
  }

  function AssembleServiceAccount(ca: ChiaCA): Object {
    ServiceAccount(GeneratorMeta(ca, GeneratorName(ca.meta.name)))
  }

  const GENERATOR_RULES := [PolicyRule([""], ["secrets"], ["create"])]

  function AssembleRole(ca: ChiaCA): Object {
    Role(GeneratorMeta(ca, GeneratorName(ca.meta.name)), GENERATOR_RULES)
  }

  function AssembleRoleBinding(ca: ChiaCA): Object {
    RoleBinding(GeneratorMeta(ca, GeneratorName(ca.meta.name)),
                [Subject("ServiceAccount", GeneratorName(ca.meta.name))], RoleRef("Role", GeneratorName(ca.meta.name)))
  }

  function JobEnv(ca: ChiaCA): seq<EnvVar> {
    [EnvVar("NAMESPACE", ca.meta.ns), EnvVar("SECRET_NAME", ca.secret)]
  }

  function AssembleJobSpec(ca: ChiaCA): Object {
    Job(GeneratorMeta(ca, ca.meta.name), "Never", GeneratorName(ca.meta.name), "chiaca-generator", ca.image, JobEnv(ca),
        if ca.imagePullSecret != "" then [ca.imagePullSecret] else [])
  }

  /** The Job runs the image that the resource names, once, as the generator's account, with the pull
      secret that the resource names and with none if it names none. */
  predicate JobFits(job: Object, ca: ChiaCA) {
    && job.Job? && job.image == ca.image && job.containerName == "chiaca-generator" && job.restartPolicy == "Never"
    && job.serviceAccountName == ca.meta.name + "-chiaca-generator"
    && (job.imagePullSecrets == [] <==> ca.imagePullSecret == "")
    && (forall s :: s in job.imagePullSecrets ==> s == ca.imagePullSecret)
    && "" !in job.imagePullSecrets && |job.imagePullSecrets| <= 1
  }

  lemma AssembledJobFits(ca: ChiaCA)
    ensures JobFits(AssembleJobSpec(ca), ca)
  {
  }

  /** `assembleCAJob`: the pull secret is patched in afterwards, if there is one. */
  method AssembleJob(ca: ChiaCA) returns (job: Object)
    ensures job == AssembleJobSpec(ca) && JobFits(job, ca)
  {
    job := Job(GeneratorMeta(ca, ca.meta.name), "Never", GeneratorName(ca.meta.name), "chiaca-generator", ca.image,
               JobEnv(ca), []);
    if ca.imagePullSecret != "" {
      job := job.(imagePullSecrets := [ca.imagePullSecret]);
    }
  }

  /** The Secret that the resource names. */
  function SecretOf(ca: ChiaCA): NamespacedName {
    NamespacedName(ca.meta.ns, ca.secret)
  }

  function AccountKey(k: NamespacedName): Key { Key(ServiceAccountKind, k.ns, GeneratorName(k.name)) }
  function RoleKeyOf(k: NamespacedName): Key { Key(RoleKind, k.ns, GeneratorName(k.name)) }
  function BindingKey(k: NamespacedName): Key { Key(RoleBindingKind, k.ns, GeneratorName(k.name)) }
  function JobKey(k: NamespacedName): Key { Key(JobKind, k.ns, k.name) }

  /** The RBAC objects, in the order they are applied. */
  function SetupObjects(ca: ChiaCA): (r: seq<Object>)
    ensures |r| == 3
  {
    [AssembleServiceAccount(ca), AssembleRole(ca), AssembleRoleBinding(ca)]
  }

  function SetupKeys(k: NamespacedName): (r: seq<Key>)
    ensures |r| == 3
  {
    [AccountKey(k), RoleKeyOf(k), BindingKey(k)]
  }

  lemma SetupObjectsAtKeys(ca: ChiaCA, j: nat)
    requires j < 3
    ensures KeyOf(SetupObjects(ca)[j]) == SetupKeys(CAKeyOf(ca))[j]
    ensures KeyOf(AssembleJobSpec(ca)) == JobKey(CAKeyOf(ca))
  {
  }

  /** First the account, then the role, and then the binding that needs both. */
  lemma SetupOrder(ca: ChiaCA)
    ensures SetupObjects(ca)[0].ServiceAccount? && SetupObjects(ca)[1].Role? && SetupObjects(ca)[2].RoleBinding?
    ensures SetupObjects(ca)[2].subjects == [Subject("ServiceAccount", SetupObjects(ca)[0].meta.name)]
    ensures SetupObjects(ca)[2].roleRef == RoleRef("Role", SetupObjects(ca)[1].meta.name)
  {
  }

  /** All four of the generator's objects are in the resource's namespace, bear the four labels of a
      generator and no other, no annotations, and the resource as their one, controlling owner. */
  lemma GeneratorMetadata(ca: ChiaCA, o: Object)
    requires o in SetupObjects(ca) + [AssembleJobSpec(ca)]
    ensures o.meta.name == (if o.Job? then ca.meta.name else ca.meta.name + "-chiaca-generator")
    ensures o.meta.ns == ca.meta.ns && o.meta.annotations == None
    ensures o.meta.labels == map["app.kubernetes.io/name" := "chia", "app.kubernetes.io/managed-by" := "chia-operator",
                                 "app.kubernetes.io/instance" := ca.meta.name, "chiaca-owner" := ca.meta.name]
    ensures |o.meta.owners| == 1 && o.meta.owners[0].controller
    ensures var owner := o.meta.owners[0];
            Meta(ca.meta.ns, owner.name, owner.uid, owner.apiVersion, owner.kind) == ca.meta
  {
    assert o.meta.owners == OwnerReferences(ca.meta);
  }

  /** The generator's objects of two different resources never share a key. */
  lemma GeneratorKeysDisjoint(k: NamespacedName, j: nat, k': NamespacedName, j': nat)
    requires j < 4 && j' < 4
    requires (SetupKeys(k) + [JobKey(k)])[j] == (SetupKeys(k') + [JobKey(k')])[j']
    ensures k == k' && j == j'
  {
    if GeneratorName(k.name) == GeneratorName(k'.name) {
      GeneratorNameInjective(k.name, k'.name);
    }
  }

  // ---------- authorisation ----------

  /** A pod of a generator Job runs as a service account of its namespace. */
  datatype Pod = Pod(ns: string, serviceAccount: string, env: seq<EnvVar>)

  predicate RuleGrants(rules: seq<PolicyRule>, verb: string) {
    exists i :: 0 <= i < |rules|
      && "" in rules[i].apiGroups && "secrets" in rules[i].resources && verb in rules[i].verbs
  }

  /** A role binding in the target's namespace ties the account to a role that grants the verb on Secrets. */
  predicate Grants(objects: map<Key, Object>, key: Key, pod: Pod, verb: string, target: NamespacedName) {
    && key in objects && objects[key].RoleBinding? && key.ns == target.ns
    && pod.ns == key.ns && Subject("ServiceAccount", pod.serviceAccount) in objects[key].subjects
    && objects[key].roleRef.kind == "Role"
    && var role := Key(RoleKind, key.ns, objects[key].roleRef.name);
       role in objects && objects[role].Role? && RuleGrants(objects[role].rules, verb)
  }

  predicate Allowed(objects: map<Key, Object>, pod: Pod, verb: string, target: NamespacedName) {
    exists key :: key in objects && Grants(objects, key, pod, verb, target)
  }

  lemma GeneratorRulesGrant(verb: string)
    ensures RuleGrants(GENERATOR_RULES, verb) <==> verb == "create"
  {
    assert "secrets" in GENERATOR_RULES[0].resources && "" in GENERATOR_RULES[0].apiGroups;
    assert GENERATOR_RULES[0].verbs == ["create"];
  }

  /** How an object of the generator's must look, wherever it lies. */
  predicate WellShaped(key: Key, o: Object) {
    && KeyOf(o) == key
    && (o.Role? ==> o.rules == GENERATOR_RULES)
    && (o.RoleBinding? ==>
          o.subjects == [Subject("ServiceAccount", key.name)] && o.roleRef == RoleRef("Role", key.name))
    && (o.Job? ==>
          o.serviceAccountName == GeneratorName(key.name) && |o.env| == 2 && o.env[0] == EnvVar("NAMESPACE", key.ns))
    && (o.ServiceAccount? || o.Role? || o.RoleBinding? || o.Job?)
  }

  lemma AssembledWellShaped(ca: ChiaCA)
    ensures forall j :: 0 <= j < 3 ==> WellShaped(SetupKeys(CAKeyOf(ca))[j], SetupObjects(ca)[j])
    ensures WellShaped(JobKey(CAKeyOf(ca)), AssembleJobSpec(ca))
  {
  }

  /** The account, the role and the binding of a resource are all there. */
  predicate SetUp(objects: map<Key, Object>, k: NamespacedName) {
    AccountKey(k) in objects && RoleKeyOf(k) in objects && BindingKey(k) in objects
  }
}
