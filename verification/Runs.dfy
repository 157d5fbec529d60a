/** What one reconcile run does to the cluster: how far a failing run gets, that a clean run settles
    its resource, and that a further one changes nothing. */
module Runs {
  import opened Wrappers
  import opened Kubernetes
  import opened CustomResources
  import opened Protocol

  /** A run that reads a version and applies `m` objects. */
  function RunOf(k: CRKey, version: nat, m: nat): seq<Event> {
    if m == 0 then [Get(k, version)] else RunOf(k, version, m - 1) + [Apply(k)]
  }

  /** The objects after the first `m` of a plan are written over them. */
  function Written(c: Compiler, objects: map<Key, Object>, cr: CR, m: nat): map<Key, Object>
    requires CanWrite(c, cr, m)
  {
    if m == 0 then objects
    else var o := c.plan(cr)[m - 1].value; Written(c, objects, cr, m - 1)[KeyOf(o) := o]
  }

  predicate CanWrite(c: Compiler, cr: CR, m: nat) {
    m <= |c.plan(cr)| && forall j :: 0 <= j < m ==> c.plan(cr)[j].Some?
  }

  lemma {:induction false} WrittenIsApplied(c: Compiler, objects: map<Key, Object>, cr: CR, m: nat)
    requires Lawful(c) && CanWrite(c, cr, m)
    ensures Applied(c, Written(c, objects, cr, m), cr, m)
  {
    if m > 0 {
      WrittenIsApplied(c, objects, cr, m - 1);
      WriteElsewhere(c, Written(c, objects, cr, m - 1), CRKeyOf(cr), m - 1, c.plan(cr)[m - 1].value, cr, m - 1);
    }
  }

  /** One of the places where the first `m` objects lie. */
  predicate Targets(c: Compiler, k: CRKey, m: nat, key: Key) {
    m <= |c.keys(k)| && key in c.keys(k)[..m]
  }

  lemma {:induction false} WrittenElsewhere(c: Compiler, objects: map<Key, Object>, cr: CR, m: nat, key: Key)
    requires Lawful(c) && CanWrite(c, cr, m) && !Targets(c, CRKeyOf(cr), m, key)
    ensures SameAt(objects, Written(c, objects, cr, m), key)
  {
    if m > 0 {
      var keys := c.keys(CRKeyOf(cr));
      assert keys[..m] == keys[..m - 1] + [keys[m - 1]];
      WrittenElsewhere(c, objects, cr, m - 1, key);
    }
  }

  lemma {:induction false} WrittenAgain(c: Compiler, objects: map<Key, Object>, cr: CR, m: nat)
    requires Lawful(c) && Applied(c, objects, cr, m)
    ensures CanWrite(c, cr, m) && Written(c, objects, cr, m) == objects
  {
    if m > 0 {
      WrittenAgain(c, objects, cr, m - 1);
    }
  }

  predicate CanRead(c: Compiler, s: Cluster, k: CRKey, version: nat) {
    Enabled(c, s, Get(k, version))
  }

  /** The first `m` objects of that version can be assembled. */
  predicate CanApply(c: Compiler, s: Cluster, k: CRKey, version: nat, m: nat) {
    k in s.entries && version < |s.entries[k].history| && CanWrite(c, s.entries[k].history[version], m)
  }

  /** The cluster in the middle of a run. */
  function MidRun(c: Compiler, s: Cluster, k: CRKey, version: nat, m: nat): Cluster
    requires CanApply(c, s, k, version, m)
  {
    Cluster(s.entries[k := s.entries[k].(seen := version, proc := Running(version, m))],
            Written(c, s.objects, s.entries[k].history[version], m))
  }

  lemma MidRunStep(c: Compiler, s: Cluster, k: CRKey, version: nat, m: nat)
    requires CanApply(c, s, k, version, m + 1)
    ensures Enabled(c, MidRun(c, s, k, version, m), Apply(k))
    ensures Next(c, MidRun(c, s, k, version, m), Apply(k)) == MidRun(c, s, k, version, m + 1)
  {
    var t, t' := Next(c, MidRun(c, s, k, version, m), Apply(k)), MidRun(c, s, k, version, m + 1);
    assert t.entries == t'.entries;
  }

  /** The run has been possible so far, and has left the cluster in the middle of it. */
  ghost predicate Gets(c: Compiler, s: Cluster, k: CRKey, version: nat, m: nat)
    requires CanApply(c, s, k, version, m)
  {
    ValidFrom(c, s, RunOf(k, version, m)) && Exec(c, s, RunOf(k, version, m)) == MidRun(c, s, k, version, m)
  }

  lemma MidRunStart(c: Compiler, s: Cluster, k: CRKey, version: nat)
    requires CanRead(c, s, k, version) && CanApply(c, s, k, version, 0)
    ensures Gets(c, s, k, version, 0)
  {
    ExecOne(c, s, [], Get(k, version));
    assert [] + [Get(k, version)] == RunOf(k, version, 0);
  }

  lemma GetsFurther(c: Compiler, s: Cluster, k: CRKey, version: nat, m: nat)
    requires m > 0 && CanApply(c, s, k, version, m) && Gets(c, s, k, version, m - 1)
    ensures Gets(c, s, k, version, m)
  {
    MidRunStep(c, s, k, version, m - 1);
    ExecOne(c, s, RunOf(k, version, m - 1), Apply(k));
  }

  lemma {:induction false} RunEffect(c: Compiler, s: Cluster, k: CRKey, version: nat, m: nat)
    requires CanRead(c, s, k, version) && CanApply(c, s, k, version, m)
    ensures Gets(c, s, k, version, m)
    decreases m
  {
    if m == 0 {
      MidRunStart(c, s, k, version);
    } else {
      RunEffect(c, s, k, version, m - 1);
      GetsFurther(c, s, k, version, m);
    }
  }

  lemma ExecOne(c: Compiler, s: Cluster, a: seq<Event>, e: Event)
    requires ValidFrom(c, s, a) && Enabled(c, Exec(c, s, a), e)
    ensures ValidFrom(c, s, a + [e]) && Exec(c, s, a + [e]) == Next(c, Exec(c, s, a), e)
  {
    assert (a + [e])[..|a|] == a;
  }

  lemma {:induction false} ExecAppend(c: Compiler, s: Cluster, a: seq<Event>, b: seq<Event>)
    requires ValidFrom(c, s, a) && ValidFrom(c, Exec(c, s, a), b)
    ensures ValidFrom(c, s, a + b) && Exec(c, s, a + b) == Exec(c, Exec(c, s, a), b)
    decreases |b|
  {
    if b == [] {
      assert a + b == a;
    } else {
      var front, last := b[..|b| - 1], b[|b| - 1];
      ExecAppend(c, s, a, front);
      ExecOne(c, s, a + front, last);
      assert a + b == a + front + [last];
    }
  }

  /** A run that fails at its `m`-th call has applied exactly the `m` objects before it: those are as
      assembled, every other object of the cluster is as it was, and no resource's status changed. */
  lemma FailStop(c: Compiler, s: Cluster, k: CRKey, version: nat, m: nat)
    requires Lawful(c) && CanRead(c, s, k, version) && CanApply(c, s, k, version, m)
    requires CRKeyOf(s.entries[k].history[version]) == k
    ensures ValidFrom(c, s, RunOf(k, version, m) + [Fail(k)])
    ensures var t := Exec(c, s, RunOf(k, version, m) + [Fail(k)]);
            && t.entries == s.entries[k := s.entries[k].(seen := version)]
            && Applied(c, t.objects, s.entries[k].history[version], m)
            && forall key :: !Targets(c, k, m, key) ==> SameAt(s.objects, t.objects, key)
  {
    var cr := s.entries[k].history[version];
    RunEffect(c, s, k, version, m);
    ExecOne(c, s, RunOf(k, version, m), Fail(k));
    WrittenIsApplied(c, s.objects, cr, m);
    forall key | !Targets(c, k, m, key) ensures SameAt(s.objects, Written(c, s.objects, cr, m), key) {
      WrittenElsewhere(c, s.objects, cr, m, key);
    }
  }

  /** A whole run, from the read to the status update. */
  function CleanRun(c: Compiler, s: Cluster, k: CRKey): seq<Event>
    requires k in s.entries && s.entries[k].history != []
  {
    RunOf(k, |s.entries[k].history| - 1, |c.plan(Current(s.entries[k]))|) + [Publish(k)]
  }

  /** The cluster after a clean run. */
  function AfterCleanRun(c: Compiler, s: Cluster, k: CRKey): Cluster
    requires k in s.entries && s.entries[k].history != [] && Assembles(c, Current(s.entries[k]))
  {
    var cr := Current(s.entries[k]);
    Cluster(s.entries[k := Published(s.entries[k].(seen := |s.entries[k].history| - 1))],
            Written(c, s.objects, cr, |c.plan(cr)|))
  }

  lemma MidRunPublishes(c: Compiler, s: Cluster, k: CRKey)
    requires k in s.entries && s.entries[k].live && s.entries[k].history != [] && Assembles(c, Current(s.entries[k]))
    ensures var v, n := |s.entries[k].history| - 1, |c.plan(Current(s.entries[k]))|;
            && CanApply(c, s, k, v, n) && Enabled(c, MidRun(c, s, k, v, n), Publish(k))
            && Next(c, MidRun(c, s, k, v, n), Publish(k)) == AfterCleanRun(c, s, k)
  {
    var v, n := |s.entries[k].history| - 1, |c.plan(Current(s.entries[k]))|;
    assert Next(c, MidRun(c, s, k, v, n), Publish(k)).entries == AfterCleanRun(c, s, k).entries;
  }

  lemma CleanRunWorks(c: Compiler, s: Cluster, k: CRKey)
    requires k in s.entries && s.entries[k].live && s.entries[k].history != [] && Assembles(c, Current(s.entries[k]))
    requires CanRead(c, s, k, |s.entries[k].history| - 1)
    ensures ValidFrom(c, s, CleanRun(c, s, k))
    ensures Exec(c, s, CleanRun(c, s, k)) == AfterCleanRun(c, s, k)
  {
    var v, n := |s.entries[k].history| - 1, |c.plan(Current(s.entries[k]))|;
    MidRunPublishes(c, s, k);
    RunEffect(c, s, k, v, n);
    ExecOne(c, s, RunOf(k, v, n), Publish(k));
  }

  /** From any reachable state, a resource that exists, is not being run and can be assembled is
      settled by one clean run: the protocol never gets stuck. */
  lemma CleanRunSettles(c: Compiler, es: seq<Event>, k: CRKey)
    requires Lawful(c) && IsTrace(c, es)
    requires var s := After(c, es);
             k in s.entries && s.entries[k].live && s.entries[k].proc.Idle? && s.entries[k].history != []
             && Assembles(c, Current(s.entries[k]))
    ensures var run := CleanRun(c, After(c, es), k);
            IsTrace(c, es + run) && Settled(es + run, k) && After(c, es + run).entries[k].ready
  {
    var s := After(c, es);
    var run := CleanRun(c, s, k);
    TraceInv(c, es);
    CleanRunWorks(c, s, k);
    ExecAppend(c, Init(), es, run);
    var i := |es + run| - 1;
    assert (es + run)[i] == Publish(k);
  }

  /** The cluster, but for the version that the resource's run last read. */
  function Seen(s: Cluster, k: CRKey): Cluster
    requires k in s.entries && s.entries[k].history != []
  {
    s.(entries := s.entries[k := s.entries[k].(seen := |s.entries[k].history| - 1)])
  }

  lemma SyncedStays(c: Compiler, s: Cluster, k: CRKey)
    requires Lawful(c) && Synced(c, s, k) && s.entries[k].proc.Idle?
    ensures Assembles(c, Current(s.entries[k])) && AfterCleanRun(c, s, k) == Seen(s, k)
  {
    var cr := Current(s.entries[k]);
    WrittenAgain(c, s.objects, cr, |c.plan(cr)|);
  }

  lemma RerunInSync(c: Compiler, s: Cluster, k: CRKey)
    requires Lawful(c) && Synced(c, s, k) && s.entries[k].proc.Idle? && s.entries[k].seen < |s.entries[k].history|
    ensures ValidFrom(c, s, CleanRun(c, s, k))
    ensures Exec(c, s, CleanRun(c, s, k)) == Seen(s, k)
  {
    SyncedStays(c, s, k);
    CleanRunWorks(c, s, k);
  }

  /** Running a settled resource once more changes no object and no status. */
  lemma RerunIsFixpoint(c: Compiler, es: seq<Event>, k: CRKey)
    requires Lawful(c) && IsTrace(c, es) && Settled(es, k)
    requires k in After(c, es).entries && After(c, es).entries[k].proc.Idle?
    ensures After(c, es).entries[k].history != []
    ensures IsTrace(c, es + CleanRun(c, After(c, es), k))
    ensures After(c, es + CleanRun(c, After(c, es), k)) == Seen(After(c, es), k)
  {
    TraceInv(c, es);
    SettledIsSynced(c, es, k);
    RerunInSync(c, After(c, es), k);
    ExecAppend(c, Init(), es, CleanRun(c, After(c, es), k));
  }
}
