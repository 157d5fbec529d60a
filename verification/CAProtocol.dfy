/** The ChiaCA controllers, the generator's pods and the users as interleaved steps over one cluster.
    A run applies the RBAC objects, asks for the Secret, applies the Job only if the Secret is missing,
    and then polls at most a hundred times. A pod may try any call on any Secret; the API server lets
    it do what its role bindings allow. */
module CAProtocol {
  import opened Wrappers
  import opened Kubernetes
  import opened CustomResources
  import opened GeneratorObjects

  const MAX_ROUNDS: nat := 100

  datatype Answer = Found | Missing | Broken

  /** Where a run stands; `version` is what it read. */
  datatype Proc =
    | Idle
    | Setup(version: nat, applied: nat)
    | Launching(version: nat)
    | Polling(version: nat, round: nat)
    | Pausing(version: nat, round: nat)
    | Publishing(version: nat)

  datatype Entry = Entry(history: seq<ChiaCA>, live: bool, ready: bool, seen: nat, proc: Proc)

  /** `ever` remembers every Secret that existed at some moment: a lagging cache may still show it. */
  datatype Cluster = Cluster(entries: map<NamespacedName, Entry>, objects: map<Key, Object>,
                             secrets: map<NamespacedName, string>, ever: set<NamespacedName>, pods: set<Pod>)

  datatype Event =
    // users
    | Create(ca: ChiaCA)
    | Edit(ca: ChiaCA)
    | Delete(k: NamespacedName)
    | PutSecret(secret: NamespacedName, material: string)
    | DropSecret(secret: NamespacedName)
    // Kubernetes starts a pod of a Job; a pod makes a call
    | SpawnPod(job: Key)
    | PodCall(pod: Pod, verb: string, secret: NamespacedName, material: string)
    // the operator, on behalf of resource `k`
    | Get(k: NamespacedName, version: nat)
    | ApplySetup(k: NamespacedName)
    | FirstQuery(k: NamespacedName, answer: Answer)
    | ApplyJob(k: NamespacedName)
    | PollQuery(k: NamespacedName, answer: Answer)
    | Sleep(k: NamespacedName)
    | Publish(k: NamespacedName)
    | Fail(k: NamespacedName)
    // the operator's process dies and starts again; of some resources its cache forgets what it has shown
    | Restart(forgotten: set<NamespacedName>)

  function Init(): Cluster {
    Cluster(map[], map[], map[], {}, {})
  }

  function Current(e: Entry): ChiaCA
    requires e.history != []
  {
    e.history[|e.history| - 1]
  }

  predicate InRun(s: Cluster, k: NamespacedName) {
    k in s.entries && !s.entries[k].proc.Idle? && s.entries[k].proc.version < |s.entries[k].history|
  }

  /** The resource as the run read it. */
  function Subject(s: Cluster, k: NamespacedName): ChiaCA
    requires InRun(s, k)
  {
    s.entries[k].history[s.entries[k].proc.version]
  }

  /** The cache can only show a Secret that existed once; it may well miss one that exists. */
  predicate CanAnswer(s: Cluster, k: NamespacedName, a: Answer)
    requires InRun(s, k)
  {
    a.Found? ==> SecretOf(Subject(s, k)) in s.ever
  }

  predicate Enabled(s: Cluster, e: Event) {
    match e
    case Create(ca) => CAKeyOf(ca) in s.entries ==> !s.entries[CAKeyOf(ca)].live
    case Edit(ca) => CAKeyOf(ca) in s.entries && s.entries[CAKeyOf(ca)].live
    case Delete(k) => k in s.entries && s.entries[k].live
    case PutSecret(_, _) => true
    case DropSecret(_) => true
    case SpawnPod(job) => job in s.objects && s.objects[job].Job?
    case PodCall(pod, _, _, _) => pod in s.pods
    case Get(k, v) => k in s.entries && s.entries[k].proc.Idle? && s.entries[k].seen <= v < |s.entries[k].history|
    case ApplySetup(k) => InRun(s, k) && s.entries[k].proc.Setup? && s.entries[k].proc.applied < 3
    case FirstQuery(k, a) =>
      InRun(s, k) && s.entries[k].proc.Setup? && s.entries[k].proc.applied == 3 && CanAnswer(s, k, a)
    case ApplyJob(k) => InRun(s, k) && s.entries[k].proc.Launching?
    case PollQuery(k, a) => InRun(s, k) && s.entries[k].proc.Polling? && CanAnswer(s, k, a)
    case Sleep(k) => InRun(s, k) && s.entries[k].proc.Pausing?
    case Publish(k) =>
      && InRun(s, k) && s.entries[k].proc.Publishing?
      && s.entries[k].live && s.entries[k].proc.version == |s.entries[k].history| - 1
    case Fail(k) => InRun(s, k)
    case Restart(_) => true
  }

  function SetProc(s: Cluster, k: NamespacedName, p: Proc): Cluster
    requires k in s.entries
  {
    s.(entries := s.entries[k := s.entries[k].(proc := p)])
  }

  function Applied(s: Cluster, o: Object): Cluster {
    s.(objects := s.objects[KeyOf(o) := o])
  }

  function PodOf(job: Object): Pod
    requires job.Job?
  {
    Pod(job.meta.ns, job.serviceAccountName, job.env)
  }

  /** The API server's side of a pod's call: create never overwrites, update and delete need a Secret. */
  function Serve(s: Cluster, verb: string, secret: NamespacedName, material: string): Cluster {
    if verb == "create" then
      if secret in s.secrets then s
      else s.(secrets := s.secrets[secret := material], ever := s.ever + {secret})
    else if verb == "update" || verb == "patch" then
      if secret in s.secrets then s.(secrets := s.secrets[secret := material]) else s
    else if verb == "delete" then s.(secrets := s.secrets - {secret})
    else s
  }

  function Published(e: Entry): Entry
    requires e.history != []
  {
    if e.ready then e.(proc := Idle)
    else e.(history := e.history + [Current(e)], ready := true, proc := Idle)
  }

  function Next(s: Cluster, e: Event): Cluster
    requires Enabled(s, e)
  {
    match e
    case Create(ca) =>
      var k := CAKeyOf(ca);
      var was := if k in s.entries then s.entries[k] else Entry([], false, false, 0, Idle);
      s.(entries := s.entries[k := was.(history := was.history + [ca], live := true, ready := false)])
    case Edit(ca) =>
      var k := CAKeyOf(ca);
      s.(entries := s.entries[k := s.entries[k].(history := s.entries[k].history + [ca])])
    case Delete(k) => s.(entries := s.entries[k := s.entries[k].(live := false)])
    case PutSecret(secret, material) =>
      s.(secrets := s.secrets[secret := material], ever := s.ever + {secret})
    case DropSecret(secret) => s.(secrets := s.secrets - {secret})
    case SpawnPod(job) => s.(pods := s.pods + {PodOf(s.objects[job])})
    case PodCall(pod, verb, secret, material) =>
      if Allowed(s.objects, pod, verb, secret) then Serve(s, verb, secret, material) else s
    case Get(k, v) => s.(entries := s.entries[k := s.entries[k].(seen := v, proc := Setup(v, 0))])
    case ApplySetup(k) =>
      var p := s.entries[k].proc;
      Applied(SetProc(s, k, Setup(p.version, p.applied + 1)), SetupObjects(Subject(s, k))[p.applied])
    case FirstQuery(k, a) =>
      SetProc(s, k, if a.Missing? then Launching(s.entries[k].proc.version) else Idle)
    case ApplyJob(k) =>
      Applied(SetProc(s, k, Polling(s.entries[k].proc.version, 1)), AssembleJobSpec(Subject(s, k)))
    case PollQuery(k, a) =>
      var p := s.entries[k].proc;
      SetProc(s, k, match a
                    case Found => Publishing(p.version)
                    case Missing => Pausing(p.version, p.round)
                    case Broken => Idle)
    case Sleep(k) =>
      var p := s.entries[k].proc;
      SetProc(s, k, if p.round < MAX_ROUNDS then Polling(p.version, p.round + 1) else Idle)
    case Publish(k) => s.(entries := s.entries[k := Published(s.entries[k])])
    case Fail(k) => SetProc(s, k, Idle)
    case Restart(forgotten) =>
      s.(entries := map k | k in s.entries ::
                      s.entries[k].(proc := Idle, seen := if k in forgotten then 0 else s.entries[k].seen))
  }

  predicate ValidFrom(s: Cluster, es: seq<Event>)
    decreases |es|, 0
  {
    es == [] || (ValidFrom(s, es[..|es| - 1]) && Enabled(Exec(s, es[..|es| - 1]), es[|es| - 1]))
  }

  function Exec(s: Cluster, es: seq<Event>): Cluster
    requires ValidFrom(s, es)
    decreases |es|, 1
  {
    if es == [] then s else Next(Exec(s, es[..|es| - 1]), es[|es| - 1])
  }

  predicate IsTrace(es: seq<Event>) {
    ValidFrom(Init(), es)
  }

  function After(es: seq<Event>): Cluster
    requires IsTrace(es)
  {
    Exec(Init(), es)
  }

  // ---------- what every step keeps ----------

  ghost predicate SomeSecretExisted(s: Cluster, e: Entry) {
    exists v :: 0 <= v < |e.history| && SecretOf(e.history[v]) in s.ever
  }

  predicate ProcInv(s: Cluster, k: NamespacedName, e: Entry)
    requires e.seen < |e.history|
  {
    match e.proc
    case Idle => true
    case Setup(v, n) => v == e.seen && n <= 3 && forall j :: 0 <= j < n ==> SetupKeys(k)[j] in s.objects
    case Launching(v) => v == e.seen && SetUp(s.objects, k)
    case Polling(v, i) => v == e.seen && SetUp(s.objects, k) && JobKey(k) in s.objects && 1 <= i <= MAX_ROUNDS
    case Pausing(v, i) => v == e.seen && SetUp(s.objects, k) && JobKey(k) in s.objects && 1 <= i <= MAX_ROUNDS
    case Publishing(v) => v == e.seen && SecretOf(e.history[v]) in s.ever
  }

  ghost predicate EntryInv(s: Cluster, k: NamespacedName, e: Entry) {
    && e.seen < |e.history| && (forall v :: 0 <= v < |e.history| ==> CAKeyOf(e.history[v]) == k)
    && ProcInv(s, k, e) && (e.ready ==> SomeSecretExisted(s, e))
  }

  /** The pod runs in the namespace, and as the account, of a resource whose objects are all there. */
  predicate BelongsTo(s: Cluster, pod: Pod, k: NamespacedName) {
    SetUp(s.objects, k) && pod.ns == k.ns && Key(ServiceAccountKind, pod.ns, pod.serviceAccount) == AccountKey(k)
  }

  ghost predicate Sponsored(s: Cluster, pod: Pod) {
    exists k :: BelongsTo(s, pod, k)
  }

  /** The object looks as it must, and a Job's account, role and binding are there too. */
  predicate ObjectInv(s: Cluster, key: Key)
    requires key in s.objects
  {
    WellShaped(key, s.objects[key]) && (key.kind == JobKind ==> SetUp(s.objects, NamespacedName(key.ns, key.name)))
  }

  ghost predicate Inv(s: Cluster) {
    && (forall k :: k in s.entries ==> EntryInv(s, k, s.entries[k]))
    && (forall key :: key in s.objects ==> ObjectInv(s, key))
    && (forall pod :: pod in s.pods ==> Sponsored(s, pod))
    && (forall secret :: secret in s.secrets ==> secret in s.ever)
  }

  /** Derived objects are never removed, and what existed once is remembered. */
  predicate Grows(s: Cluster, t: Cluster) {
    s.objects.Keys <= t.objects.Keys && s.ever <= t.ever && s.pods <= t.pods
  }

  lemma StepGrows(s: Cluster, e: Event)
    requires Enabled(s, e)
    ensures Grows(s, Next(s, e))
  {
  }

  lemma EntryKept(s: Cluster, t: Cluster, k: NamespacedName, e: Entry)
    requires EntryInv(s, k, e) && Grows(s, t)
    ensures EntryInv(t, k, e)
  {
    if e.ready {
      var v :| 0 <= v < |e.history| && SecretOf(e.history[v]) in s.ever;
      assert SecretOf(e.history[v]) in t.ever;
    }
  }

  /** The entry that a step changes, if it changes one. */
  function Touched(e: Event): Option<NamespacedName> {
    match e
    case Create(ca) => Some(CAKeyOf(ca))
    case Edit(ca) => Some(CAKeyOf(ca))
    case Delete(k) => Some(k)
    case PutSecret(_, _) => None
    case DropSecret(_) => None
    case SpawnPod(_) => None
    case PodCall(_, _, _, _) => None
    case Get(k, _) => Some(k)
    case ApplySetup(k) => Some(k)
    case FirstQuery(k, _) => Some(k)
    case ApplyJob(k) => Some(k)
    case PollQuery(k, _) => Some(k)
    case Sleep(k) => Some(k)
    case Publish(k) => Some(k)
    case Fail(k) => Some(k)
    case Restart(_) => None
  }

  lemma LongerHistory(s: Cluster, e: Entry, longer: seq<ChiaCA>)
    requires SomeSecretExisted(s, e) && e.history <= longer
    ensures SomeSecretExisted(s, e.(history := longer))
  {
    var v :| 0 <= v < |e.history| && SecretOf(e.history[v]) in s.ever;
    assert longer[v] == e.history[v];
  }

  lemma UserKeepsEntry(s: Cluster, e: Event, k: NamespacedName)
    requires Inv(s) && Enabled(s, e) && (e.Create? || e.Edit? || e.Delete?) && Touched(e) == Some(k)
    ensures k in Next(s, e).entries && EntryInv(s, k, Next(s, e).entries[k])
  {
    if k in s.entries {
      var was := s.entries[k];
      if was.ready && e.Edit? {
        LongerHistory(s, was, Next(s, e).entries[k].history);
      }
    }
  }

  lemma SetupKeepsEntry(s: Cluster, k: NamespacedName)
    requires Inv(s) && Enabled(s, ApplySetup(k))
    ensures EntryInv(Next(s, ApplySetup(k)), k, Next(s, ApplySetup(k)).entries[k])
  {
    var t := Next(s, ApplySetup(k));
    var p := s.entries[k].proc;
    SetupObjectsAtKeys(Subject(s, k), p.applied);
    EntryKept(s, t, k, s.entries[k]);
    assert SetupKeys(k)[p.applied] in t.objects;
  }

  lemma PublishKeepsEntry(s: Cluster, k: NamespacedName)
    requires Inv(s) && Enabled(s, Publish(k))
    ensures EntryInv(Next(s, Publish(k)), k, Next(s, Publish(k)).entries[k])
  {
    var was := s.entries[k];
    assert SecretOf(was.history[was.proc.version]) in s.ever;
    LongerHistory(s, was, Next(s, Publish(k)).entries[k].history);
  }

  lemma QueryKeepsEntry(s: Cluster, k: NamespacedName, a: Answer)
    requires Inv(s) && Enabled(s, FirstQuery(k, a))
    ensures EntryInv(Next(s, FirstQuery(k, a)), k, Next(s, FirstQuery(k, a)).entries[k])
  {
    var keys := SetupKeys(k);
    EntryKept(s, Next(s, FirstQuery(k, a)), k, s.entries[k]);
    assert keys[0] in s.objects && keys[1] in s.objects && keys[2] in s.objects;
  }

  lemma JobKeepsEntry(s: Cluster, k: NamespacedName)
    requires Inv(s) && Enabled(s, ApplyJob(k))
    ensures EntryInv(Next(s, ApplyJob(k)), k, Next(s, ApplyJob(k)).entries[k])
  {
    SetupObjectsAtKeys(Subject(s, k), 0);
    EntryKept(s, Next(s, ApplyJob(k)), k, s.entries[k]);
  }

  lemma OperatorKeepsEntry(s: Cluster, e: Event, k: NamespacedName)
    requires Inv(s) && Enabled(s, e) && Touched(e) == Some(k)
    requires e.Get? || e.PollQuery? || e.Sleep? || e.Fail?
    ensures EntryInv(Next(s, e), k, Next(s, e).entries[k])
  {
    EntryKept(s, Next(s, e), k, s.entries[k]);
  }

  lemma StepKeepsEntries(s: Cluster, e: Event, k: NamespacedName)
    requires Inv(s) && Enabled(s, e) && k in Next(s, e).entries
    ensures EntryInv(Next(s, e), k, Next(s, e).entries[k])
  {
    var t := Next(s, e);
    StepGrows(s, e);
    if Touched(e) == Some(k) {
      if e.Create? || e.Edit? || e.Delete? {
        UserKeepsEntry(s, e, k);
        EntryKept(s, t, k, t.entries[k]);
      } else if e.ApplySetup? {
        SetupKeepsEntry(s, k);
      } else if e.FirstQuery? {
        QueryKeepsEntry(s, k, e.answer);
      } else if e.ApplyJob? {
        JobKeepsEntry(s, k);
      } else if e.Publish? {
        PublishKeepsEntry(s, k);
      } else {
        OperatorKeepsEntry(s, e, k);
      }
    } else {
      EntryKept(s, t, k, s.entries[k]);
    }
  }

  lemma SetupKeepsObjects(s: Cluster, k: NamespacedName, key: Key)
    requires Inv(s) && Enabled(s, ApplySetup(k)) && key in Next(s, ApplySetup(k)).objects
    ensures ObjectInv(Next(s, ApplySetup(k)), key)
  {
    StepGrows(s, ApplySetup(k));
    SetupObjectsAtKeys(Subject(s, k), s.entries[k].proc.applied);
    AssembledWellShaped(Subject(s, k));
  }

  lemma JobKeepsObjects(s: Cluster, k: NamespacedName, key: Key)
    requires Inv(s) && Enabled(s, ApplyJob(k)) && key in Next(s, ApplyJob(k)).objects
    ensures ObjectInv(Next(s, ApplyJob(k)), key)
  {
    StepGrows(s, ApplyJob(k));
    SetupObjectsAtKeys(Subject(s, k), 0);
    AssembledWellShaped(Subject(s, k));
  }

  lemma StepKeepsObjects(s: Cluster, e: Event, key: Key)
    requires Inv(s) && Enabled(s, e) && key in Next(s, e).objects
    ensures ObjectInv(Next(s, e), key)
  {
    if e.ApplySetup? {
      SetupKeepsObjects(s, e.k, key);
    } else if e.ApplyJob? {
      JobKeepsObjects(s, e.k, key);
    } else {
      assert Next(s, e).objects == s.objects;
    }
  }

  lemma StepKeepsPods(s: Cluster, e: Event, pod: Pod)
    requires Inv(s) && Enabled(s, e) && pod in Next(s, e).pods
    ensures Sponsored(Next(s, e), pod)
  {
    StepGrows(s, e);
    var t := Next(s, e);
    if pod in s.pods {
      var k :| BelongsTo(s, pod, k);
      assert BelongsTo(t, pod, k);
    } else {
      var key := e.job;
      assert WellShaped(key, s.objects[key]);
      assert BelongsTo(t, pod, NamespacedName(key.ns, key.name));
    }
  }

  lemma StepKeepsInv(s: Cluster, e: Event)
    requires Inv(s) && Enabled(s, e)
    ensures Inv(Next(s, e))
  {
    var t := Next(s, e);
    forall k | k in t.entries ensures EntryInv(t, k, t.entries[k]) {
      StepKeepsEntries(s, e, k);
    }
    forall key | key in t.objects ensures ObjectInv(t, key) {
      StepKeepsObjects(s, e, key);
    }
    forall pod | pod in t.pods ensures Sponsored(t, pod) {
      StepKeepsPods(s, e, pod);
    }
  }

  lemma {:induction false} TraceInv(es: seq<Event>)
    requires IsTrace(es)
    ensures Inv(After(es))
  {
    if es != [] {
      TraceInv(es[..|es| - 1]);
      StepKeepsInv(After(es[..|es| - 1]), es[|es| - 1]);
    }
  }
}
