/** What the ChiaCA controller and its generator bring about together, from any reachable state. */
module CADelivery {
  import opened Wrappers
  import opened Kubernetes
  import opened CustomResources
  import opened GeneratorObjects
  import opened CAProtocol
  import opened CATheorems
  import opened CARuns
  import Common

  /** The Secret that the generator's script creates, by its environment. */
  function ScriptTarget(env: seq<EnvVar>): NamespacedName {
    NamespacedName(Common.Lookup(env, "NAMESPACE").GetOr(""), Common.Lookup(env, "SECRET_NAME").GetOr(""))
  }

  /** The resource exists, its latest version, number `v`, is `ca`, and its run stands at `p`. */
  predicate Stands(s: Cluster, k: NamespacedName, ca: ChiaCA, v: nat, p: Proc) {
    && k in s.entries && s.entries[k].live && |s.entries[k].history| == v + 1 && s.entries[k].history[v] == ca
    && s.entries[k].proc == p && CAKeyOf(ca) == k
  }

  /** A step of the run, as seen from its resource: it was possible, and left `Ready` and the Secrets as they were. */
  predicate Leads(s: Cluster, e: Event, k: NamespacedName, ca: ChiaCA, v: nat, p: Proc) {
    && Enabled(s, e) && Stands(Next(s, e), k, ca, v, p)
    && k in s.entries && Next(s, e).entries[k].ready == s.entries[k].ready
    && Next(s, e).secrets == s.secrets && Next(s, e).ever == s.ever
  }

  lemma ReadStep(s: Cluster, k: NamespacedName, ca: ChiaCA, v: nat)
    requires Stands(s, k, ca, v, Idle) && s.entries[k].seen <= v
    ensures Leads(s, Get(k, v), k, ca, v, Setup(v, 0))
  {
  }

  lemma SetupStep(s: Cluster, k: NamespacedName, ca: ChiaCA, v: nat, n: nat)
    requires Stands(s, k, ca, v, Setup(v, n)) && n < 3
    ensures Leads(s, ApplySetup(k), k, ca, v, Setup(v, n + 1))
  {
  }

  /** What a whole stretch of a run keeps. */
  ghost predicate Carries(es: seq<Event>, run: seq<Event>, k: NamespacedName, ca: ChiaCA, v: nat, p: Proc)
    requires IsTrace(es) && k in After(es).entries
  {
    && IsTrace(es + run) && Stands(After(es + run), k, ca, v, p)
    && After(es + run).entries[k].ready == After(es).entries[k].ready
    && After(es + run).secrets == After(es).secrets && After(es + run).ever == After(es).ever
  }

  lemma CarriesOn(es: seq<Event>, run: seq<Event>, e: Event, k: NamespacedName, ca: ChiaCA, v: nat, p: Proc, p': Proc)
    requires IsTrace(es) && k in After(es).entries && Carries(es, run, k, ca, v, p)
    requires Leads(After(es + run), e, k, ca, v, p')
    ensures Carries(es, run + [e], k, ca, v, p')
  {
    Extend(es + run, e);
    assert es + run + [e] == es + (run + [e]);
  }

  /** A run up to where `n` of the RBAC objects are applied can take place. */
  lemma {:induction false} SetupGoesThrough(es: seq<Event>, k: NamespacedName, ca: ChiaCA, v: nat, n: nat)
    requires IsTrace(es) && Stands(After(es), k, ca, v, Idle) && n <= 3
    ensures Carries(es, SetupEvents(k, v, n), k, ca, v, Setup(v, n))
  {
    if n == 0 {
      TraceInv(es);
      ReadStep(After(es), k, ca, v);
      assert es + [] == es;
      CarriesOn(es, [], Get(k, v), k, ca, v, Idle, Setup(v, 0));
      assert [] + [Get(k, v)] == SetupEvents(k, v, 0);
    } else {
      SetupGoesThrough(es, k, ca, v, n - 1);
      SetupStep(After(es + SetupEvents(k, v, n - 1)), k, ca, v, n - 1);
      CarriesOn(es, SetupEvents(k, v, n - 1), ApplySetup(k), k, ca, v, Setup(v, n - 1), Setup(v, n));
    }
  }

  // ---------- a Secret that is there already ----------

  lemma FoundStep(s: Cluster, k: NamespacedName, ca: ChiaCA, v: nat)
    requires Stands(s, k, ca, v, Setup(v, 3)) && SecretOf(ca) in s.ever
    ensures Leads(s, FirstQuery(k, Answer.Found), k, ca, v, Idle)
  {
  }

  /** With the Secret in place beforehand, a run in which no call fails ends well and leaves `Ready`
      as it was: a resource that was not ready stays so, against the documented meaning. */
  lemma PreexistingSecretIsNotReported(es: seq<Event>, k: NamespacedName, ca: ChiaCA, v: nat)
    requires IsTrace(es) && Stands(After(es), k, ca, v, Idle) && SecretOf(ca) in After(es).ever
    ensures Carries(es, SetupEvents(k, v, 3) + [FirstQuery(k, Answer.Found)], k, ca, v, Idle)
  {
    SetupGoesThrough(es, k, ca, v, 3);
    FoundStep(After(es + SetupEvents(k, v, 3)), k, ca, v);
    CarriesOn(es, SetupEvents(k, v, 3), FirstQuery(k, Answer.Found), k, ca, v, Setup(v, 3), Idle);
  }

  // ---------- a delivery ----------

  lemma MissStep(s: Cluster, k: NamespacedName, ca: ChiaCA, v: nat)
    requires Stands(s, k, ca, v, Setup(v, 3))
    ensures Leads(s, FirstQuery(k, Missing), k, ca, v, Launching(v))
  {
  }

  lemma JobStep(s: Cluster, k: NamespacedName, ca: ChiaCA, v: nat)
    requires Stands(s, k, ca, v, Launching(v))
    ensures Leads(s, ApplyJob(k), k, ca, v, Polling(v, 1))
    ensures JobKey(k) in Next(s, ApplyJob(k)).objects
    ensures Next(s, ApplyJob(k)).objects[JobKey(k)] == AssembleJobSpec(ca)
  {
    SetupObjectsAtKeys(ca, 0);
  }

  function LaunchRun(k: NamespacedName, v: nat): seq<Event> {
    SetupEvents(k, v, 3) + [FirstQuery(k, Missing)] + [ApplyJob(k)]
  }

  lemma LaunchGoesThrough(es: seq<Event>, k: NamespacedName, ca: ChiaCA, v: nat)
    requires IsTrace(es) && Stands(After(es), k, ca, v, Idle)
    ensures Carries(es, LaunchRun(k, v), k, ca, v, Polling(v, 1))
    ensures var t := After(es + LaunchRun(k, v)); JobKey(k) in t.objects && t.objects[JobKey(k)] == AssembleJobSpec(ca)
  {
    var run := SetupEvents(k, v, 3);
    SetupGoesThrough(es, k, ca, v, 3);
    MissStep(After(es + run), k, ca, v);
    CarriesOn(es, run, FirstQuery(k, Missing), k, ca, v, Setup(v, 3), Launching(v));
    run := run + [FirstQuery(k, Missing)];
    JobStep(After(es + run), k, ca, v);
    CarriesOn(es, run, ApplyJob(k), k, ca, v, Launching(v), Polling(v, 1));
    Extend(es + run, ApplyJob(k));
    assert es + run + [ApplyJob(k)] == es + (run + [ApplyJob(k)]);
  }

  /** The generator's script writes to the very Secret that its resource names. */
  lemma ScriptHitsItsSecret(ca: ChiaCA)
    ensures ScriptTarget(AssembleJobSpec(ca).env) == SecretOf(ca)
  {
    var env := AssembleJobSpec(ca).env;
    assert "SECRET_NAME"[0] != "NAMESPACE"[0];
    assert env[..1] == [EnvVar("NAMESPACE", ca.meta.ns)];
    assert Common.Lookup(env, "SECRET_NAME") == Some(ca.secret);
    assert Common.Lookup(env, "NAMESPACE") == Common.Lookup(env[..1], "NAMESPACE") == Some(ca.meta.ns);
  }

  /** The pod of the resource's Job, and the call its script makes. */
  function ScriptCall(ca: ChiaCA, material: string): Event {
    PodCall(PodOf(AssembleJobSpec(ca)), "create", ScriptTarget(PodOf(AssembleJobSpec(ca)).env), material)
  }

  function GeneratorRun(ca: ChiaCA, material: string): seq<Event> {
    [SpawnPod(JobKey(CAKeyOf(ca)))] + [ScriptCall(ca, material)]
  }

  /** What a cluster's Secrets are after the script ran: it creates, and never overwrites. */
  function WithMaterial(secrets: map<NamespacedName, string>, ca: ChiaCA, material: string)
    : map<NamespacedName, string>
  {
    if SecretOf(ca) in secrets then secrets else secrets[SecretOf(ca) := material]
  }

  /** Once the Job is applied its pod can start, and its script creates the Secret unless it exists. */
  lemma GeneratorGoesThrough(es: seq<Event>, ca: ChiaCA, material: string)
    requires IsTrace(es) && JobKey(CAKeyOf(ca)) in After(es).objects
    requires After(es).objects[JobKey(CAKeyOf(ca))] == AssembleJobSpec(ca)
    ensures IsTrace(es + GeneratorRun(ca, material))
    ensures var s, t := After(es), After(es + GeneratorRun(ca, material));
            && t.entries == s.entries && t.secrets == WithMaterial(s.secrets, ca, material)
            && SecretOf(ca) in t.secrets && SecretOf(ca) in t.ever
  {
    var e := SpawnPod(JobKey(CAKeyOf(ca)));
    Extend(es, e);
    ScriptHitsItsSecret(ca);
    PodsMayOnlyCreate(es + [e], PodOf(AssembleJobSpec(ca)), "create", SecretOf(ca));
    Extend(es + [e], ScriptCall(ca, material));
    assert es + [e] + [ScriptCall(ca, material)] == es + GeneratorRun(ca, material);
    TraceInv(es);
  }

  function Notice(k: NamespacedName): seq<Event> {
    [PollQuery(k, Answer.Found)] + [Publish(k)]
  }

  lemma NoticeGoesThrough(es: seq<Event>, k: NamespacedName, ca: ChiaCA, v: nat)
    requires IsTrace(es) && Stands(After(es), k, ca, v, Polling(v, 1)) && SecretOf(ca) in After(es).ever
    ensures IsTrace(es + Notice(k))
    ensures var t := After(es + Notice(k));
            && t.secrets == After(es).secrets && k in t.entries && t.entries[k].ready && t.entries[k].live
            && t.entries[k].proc.Idle? && t.entries[k].history != [] && Current(t.entries[k]) == ca
  {
    Extend(es, PollQuery(k, Answer.Found));
    Extend(es + [PollQuery(k, Answer.Found)], Publish(k));
    assert es + [PollQuery(k, Answer.Found)] + [Publish(k)] == es + Notice(k);
  }

  /** The controller, its Job's pod, and the controller again. */
  function Delivery(k: NamespacedName, v: nat, ca: ChiaCA, material: string): seq<Event> {
    LaunchRun(k, v) + GeneratorRun(ca, material) + Notice(k)
  }

  /** From every reachable state in which the resource is not being run, its controller, its Job's pod
      and its controller again can bring it to `Ready` with the Secret it names in place. The Secret
      holds what the generator made, unless there was one before; no other Secret changes. */
  lemma DeliveryGoesThrough(es: seq<Event>, k: NamespacedName, ca: ChiaCA, v: nat, material: string)
    requires IsTrace(es) && Stands(After(es), k, ca, v, Idle)
    ensures IsTrace(es + Delivery(k, v, ca, material))
    ensures var t := After(es + Delivery(k, v, ca, material));
            && t.secrets == WithMaterial(After(es).secrets, ca, material) && SecretOf(ca) in t.secrets
            && k in t.entries && t.entries[k].ready && t.entries[k].live && t.entries[k].history != []
            && Current(t.entries[k]) == ca
  {
    LaunchGoesThrough(es, k, ca, v);
    GeneratorGoesThrough(es + LaunchRun(k, v), ca, material);
    NoticeGoesThrough(es + LaunchRun(k, v) + GeneratorRun(ca, material), k, ca, v);
    assert es + LaunchRun(k, v) + GeneratorRun(ca, material) + Notice(k) == es + Delivery(k, v, ca, material);
  }

  // ---------- a Secret that comes too late ----------

  /** Waiting changes nothing but where the run stands. */
  ghost predicate Waits(es: seq<Event>, run: seq<Event>, k: NamespacedName, ca: ChiaCA, v: nat, p: Proc)
    requires IsTrace(es) && k in After(es).entries
  {
    Carries(es, run, k, ca, v, p) && After(es + run).objects == After(es).objects
  }

  lemma WaitsOn(es: seq<Event>, run: seq<Event>, e: Event, k: NamespacedName, ca: ChiaCA, v: nat, p: Proc, p': Proc)
    requires IsTrace(es) && k in After(es).entries && Waits(es, run, k, ca, v, p)
    requires Leads(After(es + run), e, k, ca, v, p') && (e.PollQuery? || e.Sleep?)
    ensures Waits(es, run + [e], k, ca, v, p')
  {
    CarriesOn(es, run, e, k, ca, v, p, p');
    Extend(es + run, e);
    assert es + run + [e] == es + (run + [e]);
  }

  /** Where a run stands after `n` rounds in vain. */
  function AfterRounds(v: nat, n: nat): Proc {
    if n < MAX_ROUNDS then Polling(v, n + 1) else Idle
  }

  lemma RoundSteps(s: Cluster, k: NamespacedName, ca: ChiaCA, v: nat, i: nat)
    ensures Stands(s, k, ca, v, Polling(v, i)) ==> Leads(s, PollQuery(k, Missing), k, ca, v, Pausing(v, i))
    ensures Stands(s, k, ca, v, Pausing(v, i)) ==> Leads(s, Sleep(k), k, ca, v, AfterRounds(v, i))
  {
  }

  lemma RoundGoesThrough(es: seq<Event>, run: seq<Event>, k: NamespacedName, ca: ChiaCA, v: nat, i: nat)
    requires IsTrace(es) && k in After(es).entries && Waits(es, run, k, ca, v, Polling(v, i))
    ensures Waits(es, run + [PollQuery(k, Missing), Sleep(k)], k, ca, v, AfterRounds(v, i))
  {
    RoundSteps(After(es + run), k, ca, v, i);
    WaitsOn(es, run, PollQuery(k, Missing), k, ca, v, Polling(v, i), Pausing(v, i));
    RoundSteps(After(es + (run + [PollQuery(k, Missing)])), k, ca, v, i);
    WaitsOn(es, run + [PollQuery(k, Missing)], Sleep(k), k, ca, v, Pausing(v, i), AfterRounds(v, i));
    assert run + [PollQuery(k, Missing)] + [Sleep(k)] == run + [PollQuery(k, Missing), Sleep(k)];
  }

  /** Rounds in vain are possible up to the last. */
  lemma {:induction false} RoundsGoThrough(es: seq<Event>, k: NamespacedName, ca: ChiaCA, v: nat, n: nat)
    requires IsTrace(es) && Stands(After(es), k, ca, v, Polling(v, 1)) && n <= MAX_ROUNDS
    ensures Waits(es, MissingRounds(k, n), k, ca, v, AfterRounds(v, n))
    decreases n
  {
    if n == 0 {
      assert es + [] == es;
    } else {
      RoundsGoThrough(es, k, ca, v, n - 1);
      RoundGoesThrough(es, MissingRounds(k, n - 1), k, ca, v, n);
    }
  }

  /** A run in which no call fails and no query finds the Secret. */
  function VainRun(k: NamespacedName, v: nat): seq<Event> {
    RunEvents(k, v, Outcomes((j: nat) => false, [], false))
  }

  lemma VainRunUnrolled(k: NamespacedName, v: nat)
    ensures VainRun(k, v) == LaunchRun(k, v) + MissingRounds(k, MAX_ROUNDS)
  {
    RunUnroll(k, v, Outcomes((j: nat) => false, [], false), MAX_ROUNDS + 1);
    assert [FirstQuery(k, Missing)] + [ApplyJob(k)] == [FirstQuery(k, Missing), ApplyJob(k)];
  }

  lemma CarriesFurther(es: seq<Event>, a: seq<Event>, b: seq<Event>,
                       k: NamespacedName, ca: ChiaCA, v: nat, p: Proc, p': Proc)
    requires IsTrace(es) && k in After(es).entries && Carries(es, a, k, ca, v, p) && Waits(es + a, b, k, ca, v, p')
    ensures Carries(es, a + b, k, ca, v, p') && After(es + (a + b)).objects == After(es + a).objects
  {
    assert es + a + b == es + (a + b);
  }

  lemma VainRunGoesThrough(es: seq<Event>, k: NamespacedName, ca: ChiaCA, v: nat, run: seq<Event>)
    requires IsTrace(es) && Stands(After(es), k, ca, v, Idle)
    requires run == LaunchRun(k, v) + MissingRounds(k, MAX_ROUNDS)
    ensures Carries(es, run, k, ca, v, Idle)
    ensures JobKey(k) in After(es + run).objects && After(es + run).objects[JobKey(k)] == AssembleJobSpec(ca)
  {
    LaunchGoesThrough(es, k, ca, v);
    RoundsGoThrough(es + LaunchRun(k, v), k, ca, v, MAX_ROUNDS);
    CarriesFurther(es, LaunchRun(k, v), MissingRounds(k, MAX_ROUNDS), k, ca, v, Polling(v, 1), Idle);
  }

  /** From every reachable state in which the resource is not being run: after a whole run in vain the
      generator still creates the Secret, and the resource, with its Secret in place and nothing left
      to run, is no more `Ready` than before, against the documented meaning. */
  lemma SecretComesTooLate(es: seq<Event>, k: NamespacedName, ca: ChiaCA, v: nat, material: string)
    requires IsTrace(es) && Stands(After(es), k, ca, v, Idle)
    ensures IsTrace(es + VainRun(k, v) + GeneratorRun(ca, material))
    ensures Count(VainRun(k, v), Query) == 101 && Count(VainRun(k, v), Nap) == 100
    ensures var t := After(es + VainRun(k, v) + GeneratorRun(ca, material));
            && SecretOf(ca) in t.secrets && Stands(t, k, ca, v, Idle)
            && t.entries[k].ready == After(es).entries[k].ready
  {
    RunCalls(k, v, Outcomes((j: nat) => false, [], false), 101);
    VainRunUnrolled(k, v);
    VainRunGoesThrough(es, k, ca, v, VainRun(k, v));
    GeneratorGoesThrough(es + VainRun(k, v), ca, material);
  }

  // ---------- a `Ready` that outlives its Secret ----------

  /** The history of one resource, from its creation to its Secret's delivery. */
  function FirstDelivery(ca: ChiaCA, material: string): seq<Event> {
    [Create(ca)] + Delivery(CAKeyOf(ca), 0, ca, material)
  }

  lemma FirstDeliveryGoesThrough(ca: ChiaCA, material: string)
    ensures IsTrace(FirstDelivery(ca, material))
    ensures var t, k := After(FirstDelivery(ca, material)), CAKeyOf(ca);
            && t.secrets == map[SecretOf(ca) := material] && k in t.entries && t.entries[k].ready && t.entries[k].live
            && t.entries[k].history != [] && Current(t.entries[k]) == ca
  {
    Extend([], Create(ca));
    assert [] + [Create(ca)] == [Create(ca)];
    DeliveryGoesThrough([Create(ca)], CAKeyOf(ca), ca, 0, material);
  }

  /** `Ready` stands after an edit that names another Secret, which is nowhere. */
  lemma ReadyOutlivesEdit(ca: ChiaCA, edited: ChiaCA, material: string)
    requires CAKeyOf(edited) == CAKeyOf(ca) && edited.secret != ca.secret
    ensures IsTrace(FirstDelivery(ca, material) + [Edit(edited)])
    ensures Misreports(After(FirstDelivery(ca, material) + [Edit(edited)]), CAKeyOf(ca))
  {
    FirstDeliveryGoesThrough(ca, material);
    Extend(FirstDelivery(ca, material), Edit(edited));
  }

  /** `Ready` stands after the Secret is removed. */
  lemma ReadyOutlivesSecret(ca: ChiaCA, material: string)
    ensures IsTrace(FirstDelivery(ca, material) + [DropSecret(SecretOf(ca))])
    ensures Misreports(After(FirstDelivery(ca, material) + [DropSecret(SecretOf(ca))]), CAKeyOf(ca))
  {
    FirstDeliveryGoesThrough(ca, material);
    Extend(FirstDelivery(ca, material), DropSecret(SecretOf(ca)));
  }

  /** A Secret that a user made and removed, before the resource that names it was created. */
  function Gone(ca: ChiaCA, material: string): seq<Event> {
    [PutSecret(SecretOf(ca), material)] + [DropSecret(SecretOf(ca))] + [Create(ca)]
  }

  lemma GoneGoesThrough(ca: ChiaCA, material: string)
    ensures IsTrace(Gone(ca, material))
    ensures var s := After(Gone(ca, material));
            Stands(s, CAKeyOf(ca), ca, 0, Idle) && s.secrets == map[] && SecretOf(ca) in s.ever
  {
    var put, drop := PutSecret(SecretOf(ca), material), DropSecret(SecretOf(ca));
    Extend([], put);
    assert [] + [put] == [put];
    Extend([put], drop);
    Extend([put] + [drop], Create(ca));
  }

  /** `Ready` is written for a Secret that is gone and that only the cache still shows. */
  lemma ReadyWrittenForGoneSecret(ca: ChiaCA, material: string)
    ensures IsTrace(Gone(ca, material) + LaunchRun(CAKeyOf(ca), 0) + Notice(CAKeyOf(ca)))
    ensures Misreports(After(Gone(ca, material) + LaunchRun(CAKeyOf(ca), 0) + Notice(CAKeyOf(ca))), CAKeyOf(ca))
  {
    var k := CAKeyOf(ca);
    GoneGoesThrough(ca, material);
    LaunchGoesThrough(Gone(ca, material), k, ca, 0);
    NoticeGoesThrough(Gone(ca, material) + LaunchRun(k, 0), k, ca, 0);
  }
}
