/** What a failing run of the ChiaCA controller leaves behind: exactly what it applied. */
module CAEffects {
  import opened Wrappers
  import opened Kubernetes
  import opened CustomResources
  import opened CAProtocol
  import opened CATheorems
  import opened CARuns
  import opened CASync

  /** The objects after the first `n` of the resource's are written over them. */
  function Written(objects: map<Key, Object>, ca: ChiaCA, n: nat): map<Key, Object>
    requires n <= 4
  {
    if n == 0 then objects else Written(objects, ca, n - 1)[Places(CAKeyOf(ca))[n - 1] := Generated(ca)[n - 1]]
  }

  lemma {:induction false} WrittenIsInPlace(objects: map<Key, Object>, ca: ChiaCA, n: nat)
    requires n <= 4
    ensures InPlace(Written(objects, ca, n), ca, n)
    decreases n
  {
    if n > 0 {
      WrittenIsInPlace(objects, ca, n - 1);
      WriteElsewhere(Written(objects, ca, n - 1), ca, n - 1, ca, n - 1);
    }
  }

  lemma {:induction false} WrittenNowhereElse(objects: map<Key, Object>, ca: ChiaCA, n: nat, key: Key)
    requires n <= 4 && key !in Places(CAKeyOf(ca))[..n]
    ensures SameAt(objects, Written(objects, ca, n), key)
    decreases n
  {
    if n > 0 {
      var places := Places(CAKeyOf(ca));
      assert places[..n] == places[..n - 1] + [places[n - 1]];
      WrittenNowhereElse(objects, ca, n - 1, key);
    }
  }

  predicate CanRead(s: Cluster, k: NamespacedName, v: nat, ca: ChiaCA) {
    Enabled(s, Get(k, v)) && s.entries[k].history[v] == ca && CAKeyOf(ca) == k
  }

  /** The cluster with the run at `p`, and `n` objects written. */
  function MidRun(s: Cluster, k: NamespacedName, v: nat, ca: ChiaCA, p: Proc, n: nat): Cluster
    requires k in s.entries && n <= 4
  {
    s.(entries := s.entries[k := s.entries[k].(seen := v, proc := p)], objects := Written(s.objects, ca, n))
  }

  lemma MidRunStep(s: Cluster, k: NamespacedName, v: nat, ca: ChiaCA, n: nat)
    requires CanRead(s, k, v, ca) && n < 3
    ensures Enabled(MidRun(s, k, v, ca, Setup(v, n), n), ApplySetup(k))
    ensures Next(MidRun(s, k, v, ca, Setup(v, n), n), ApplySetup(k)) == MidRun(s, k, v, ca, Setup(v, n + 1), n + 1)
  {
    GeneratedAtPlaces(ca, n);
    var t, t' := Next(MidRun(s, k, v, ca, Setup(v, n), n), ApplySetup(k)), MidRun(s, k, v, ca, Setup(v, n + 1), n + 1);
    assert t.entries == t'.entries && t.objects == t'.objects;
  }

  ghost predicate Reaches(es: seq<Event>, run: seq<Event>, t: Cluster)
  {
    IsTrace(es + run) && After(es + run) == t
  }

  lemma ReachesFurther(es: seq<Event>, run: seq<Event>, s: Cluster, e: Event, t: Cluster)
    requires Reaches(es, run, s) && Enabled(s, e) && Next(s, e) == t
    ensures Reaches(es, run + [e], t)
  {
    Extend(es + run, e);
    assert es + run + [e] == es + (run + [e]);
  }

  lemma {:induction false} SetupEffect(es: seq<Event>, k: NamespacedName, v: nat, ca: ChiaCA, n: nat)
    requires IsTrace(es) && CanRead(After(es), k, v, ca) && n <= 3
    ensures Reaches(es, SetupEvents(k, v, n), MidRun(After(es), k, v, ca, Setup(v, n), n))
    decreases n
  {
    var s := After(es);
    if n == 0 {
      assert es + [] == es;
      ReachesFurther(es, [], s, Get(k, v), MidRun(s, k, v, ca, Setup(v, 0), 0));
      assert [] + [Get(k, v)] == SetupEvents(k, v, 0);
    } else {
      SetupEffect(es, k, v, ca, n - 1);
      MidRunStep(s, k, v, ca, n - 1);
      ReachesFurther(es, SetupEvents(k, v, n - 1), MidRun(s, k, v, ca, Setup(v, n - 1), n - 1), ApplySetup(k),
                     MidRun(s, k, v, ca, Setup(v, n), n));
    }
  }

  /** The run's `n`-th apply, counted from 0, is the first to fail. */
  predicate FailsAt(o: Outcomes, n: nat) {
    n <= 3 && FirstFailure(o) == n && (n == 3 ==> o.At(0) == Missing && o.applyFails(3))
  }

  lemma JobFailEffect(es: seq<Event>, k: NamespacedName, v: nat, ca: ChiaCA)
    requires IsTrace(es) && CanRead(After(es), k, v, ca)
    ensures Reaches(es, SetupEvents(k, v, 3) + [FirstQuery(k, Missing)] + [Fail(k)],
                    MidRun(After(es), k, v, ca, Idle, 3))
  {
    var s := After(es);
    var asked := MidRun(s, k, v, ca, Launching(v), 3);
    SetupEffect(es, k, v, ca, 3);
    ReachesFurther(es, SetupEvents(k, v, 3), MidRun(s, k, v, ca, Setup(v, 3), 3), FirstQuery(k, Missing), asked);
    ReachesFurther(es, SetupEvents(k, v, 3) + [FirstQuery(k, Missing)], asked, Fail(k), MidRun(s, k, v, ca, Idle, 3));
  }

  lemma JobFailUnrolled(k: NamespacedName, v: nat, o: Outcomes)
    requires FailsAt(o, 3)
    ensures RunEvents(k, v, o) == SetupEvents(k, v, 3) + [FirstQuery(k, Missing)] + [Fail(k)]
  {
  }

  lemma FailEffect(es: seq<Event>, k: NamespacedName, v: nat, ca: ChiaCA, o: Outcomes, n: nat)
    requires IsTrace(es) && CanRead(After(es), k, v, ca) && FailsAt(o, n)
    ensures Reaches(es, RunEvents(k, v, o), MidRun(After(es), k, v, ca, Idle, n))
  {
    var s := After(es);
    if n < 3 {
      SetupEffect(es, k, v, ca, n);
      ReachesFurther(es, SetupEvents(k, v, n), MidRun(s, k, v, ca, Setup(v, n), n), Fail(k),
                     MidRun(s, k, v, ca, Idle, n));
    } else {
      JobFailEffect(es, k, v, ca);
      JobFailUnrolled(k, v, o);
    }
  }

  /** A run whose `n`-th apply fails has applied exactly the objects before it: those are as assembled,
      every other object of the cluster is as it was, and so are all Secrets, pods and statuses. */
  lemma FailStop(es: seq<Event>, k: NamespacedName, v: nat, ca: ChiaCA, o: Outcomes, n: nat)
    requires IsTrace(es) && CanRead(After(es), k, v, ca) && FailsAt(o, n)
    ensures IsTrace(es + RunEvents(k, v, o))
    ensures var s, t := After(es), After(es + RunEvents(k, v, o));
            && t == s.(entries := s.entries[k := s.entries[k].(seen := v)], objects := t.objects)
            && InPlace(t.objects, ca, n)
            && forall key :: key !in Places(k)[..n] ==> SameAt(s.objects, t.objects, key)
  {
    var s := After(es);
    FailEffect(es, k, v, ca, o, n);
    WrittenIsInPlace(s.objects, ca, n);
    forall key | key !in Places(k)[..n] ensures SameAt(s.objects, Written(s.objects, ca, n), key) {
      WrittenNowhereElse(s.objects, ca, n, key);
    }
  }

  // ---------- a cache that goes back ----------

  /** A run that reads version `v`, misses the Secret and applies the Job. */
  function JobRun(k: NamespacedName, v: nat): seq<Event> {
    SetupEvents(k, v, 3) + [FirstQuery(k, Missing)] + [ApplyJob(k)]
  }

  lemma JobStep(s: Cluster, k: NamespacedName, v: nat, ca: ChiaCA)
    requires CanRead(s, k, v, ca)
    ensures Enabled(MidRun(s, k, v, ca, Launching(v), 3), ApplyJob(k))
    ensures Next(MidRun(s, k, v, ca, Launching(v), 3), ApplyJob(k)) == MidRun(s, k, v, ca, Polling(v, 1), 4)
  {
    GeneratedAtPlaces(ca, 3);
    var t, t' := Next(MidRun(s, k, v, ca, Launching(v), 3), ApplyJob(k)), MidRun(s, k, v, ca, Polling(v, 1), 4);
    assert t.entries == t'.entries && t.objects == t'.objects;
  }

  lemma JobEffect(es: seq<Event>, k: NamespacedName, v: nat, ca: ChiaCA)
    requires IsTrace(es) && CanRead(After(es), k, v, ca)
    ensures Reaches(es, JobRun(k, v), MidRun(After(es), k, v, ca, Polling(v, 1), 4))
  {
    var s := After(es);
    var asked := MidRun(s, k, v, ca, Launching(v), 3);
    SetupEffect(es, k, v, ca, 3);
    ReachesFurther(es, SetupEvents(k, v, 3), MidRun(s, k, v, ca, Setup(v, 3), 3), FirstQuery(k, Missing), asked);
    JobStep(s, k, v, ca);
    ReachesFurther(es, SetupEvents(k, v, 3) + [FirstQuery(k, Missing)], asked, ApplyJob(k),
                   MidRun(s, k, v, ca, Polling(v, 1), 4));
  }

  /** The two ask for different Jobs. */
  predicate OtherJob(a: ChiaCA, b: ChiaCA) {
    a.image != b.image || a.secret != b.secret || a.imagePullSecret != b.imagePullSecret
  }

  /** The Job tells what was asked for. */
  lemma JobTells(a: ChiaCA, b: ChiaCA)
    requires OtherJob(a, b)
    ensures Generated(a)[3] != Generated(b)[3]
  {
    var x, y := Generated(a)[3], Generated(b)[3];
    assert x.image == a.image && y.image == b.image;
    assert x.env[1].value == a.secret && y.env[1].value == b.secret;
  }

  lemma OldJobUnsyncs(s: Cluster, k: NamespacedName, v: nat, ca: ChiaCA)
    requires Inv(s) && CanRead(s, k, v, ca) && s.entries[k].live && OtherJob(ca, Current(s.entries[k]))
    ensures !Synced(MidRun(s, k, v, ca, Polling(v, 1), 4), k)
  {
    assert EntryInv(s, k, s.entries[k]);
    JobTells(ca, Current(s.entries[k]));
    WrittenIsInPlace(s.objects, ca, 4);
  }

  /** What a restart can undo: where the cache shows an old version again that asked for another Job, a
      run that misses the Secret puts that Job back. */
  lemma ForgettingUnsyncs(es: seq<Event>, k: NamespacedName, v: nat)
    requires IsTrace(es) && Synced(After(es), k) && v < |After(es).entries[k].history|
    requires OtherJob(After(es).entries[k].history[v], Current(After(es).entries[k]))
    ensures IsTrace(es + [Restart({k})] + JobRun(k, v)) && !Synced(After(es + [Restart({k})] + JobRun(k, v)), k)
  {
    TraceInv(es);
    Extend(es, Restart({k}));
    var forgetful, ca := es + [Restart({k})], After(es).entries[k].history[v];
    TraceInv(forgetful);
    assert EntryInv(After(es), k, After(es).entries[k]);
    JobEffect(forgetful, k, v, ca);
    OldJobUnsyncs(After(forgetful), k, v, ca);
  }
}
