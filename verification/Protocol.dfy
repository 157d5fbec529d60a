/** The component controllers as interleaved steps over one cluster. Users create, edit and delete
    resources at any moment; each resource's reconcile run reads one version of it from a cache that
    may lag, and that goes back only when the operator starts again, applies its derived objects one
    at a time, and then writes `Ready` with an optimistic update; any call may fail, and the operator
    may die and restart.

    The protocol is stated over any manifest compiler that keeps different resources' objects apart;
    `OperatorIsLawful` shows that the operator's own one does. */
module Protocol {
  import opened Wrappers
  import opened Kubernetes
  import opened CustomResources
  import Manifests

  /** `plan` is what a resource's controller assembles, in order, `None` where assembling panics;
      `keys` is where those objects lie. */
  datatype Compiler = Compiler(plan: CR -> seq<Option<Object>>, keys: CRKey -> seq<Key>)

  ghost predicate Lawful(c: Compiler) {
    && (forall cr: CR :: |c.plan(cr)| == |c.keys(CRKeyOf(cr))|)
    && (forall cr: CR, j :: 0 <= j < |c.plan(cr)| && c.plan(cr)[j].Some? ==>
          KeyOf(c.plan(cr)[j].value) == c.keys(CRKeyOf(cr))[j])
    && (forall k: CRKey, j, k': CRKey, j' ::
          (0 <= j < |c.keys(k)| && 0 <= j' < |c.keys(k')| && c.keys(k)[j] == c.keys(k')[j']) ==> k == k' && j == j')
  }

  const OPERATOR := Compiler(cr => Manifests.Assembled(cr), k => Manifests.DerivedKeys(k))

  lemma OperatorIsLawful()
    ensures Lawful(OPERATOR)
  {
    forall cr: CR, j | 0 <= j < |OPERATOR.plan(cr)| && OPERATOR.plan(cr)[j].Some?
      ensures KeyOf(OPERATOR.plan(cr)[j].value) == OPERATOR.keys(CRKeyOf(cr))[j]
    {
      Manifests.AssembledAtDerivedKeys(cr, j);
    }
    forall k: CRKey, j, k': CRKey, j' | 0 <= j < |OPERATOR.keys(k)| && 0 <= j' < |OPERATOR.keys(k')|
                                        && OPERATOR.keys(k)[j] == OPERATOR.keys(k')[j']
      ensures k == k' && j == j'
    {
      Manifests.DerivedKeysDisjoint(k, j, k', j');
    }
  }

  /** The run of one resource: the version it read, and how many objects it has applied. */
  datatype Proc = Idle | Running(version: nat, applied: nat)

  /** One resource: all versions it ever had, the last one being current; whether it exists now;
      its status; the newest version the operator's cache has shown; its run. */
  datatype Entry = Entry(history: seq<CR>, live: bool, ready: bool, seen: nat, proc: Proc)

  datatype Cluster = Cluster(entries: map<CRKey, Entry>, objects: map<Key, Object>)

  datatype Event =
    // users
    | Create(cr: CR)
    | Edit(cr: CR)
    | Delete(k: CRKey)
    // the operator, on behalf of resource `k`
    | Get(k: CRKey, version: nat)
    | Apply(k: CRKey)
    | Publish(k: CRKey)
    | Fail(k: CRKey)
    | Panic(k: CRKey)
    // the operator's process dies and starts again; of some resources its cache forgets what it has shown
    | Restart(forgotten: set<CRKey>)

  function Init(): Cluster {
    Cluster(map[], map[])
  }

  function Current(e: Entry): CR
    requires e.history != []
  {
    e.history[|e.history| - 1]
  }

  predicate InRun(s: Cluster, k: CRKey) {
    && k in s.entries && s.entries[k].proc.Running?
    && s.entries[k].proc.version < |s.entries[k].history|
  }

  /** What the run's resource assembles. */
  function Plan(c: Compiler, s: Cluster, k: CRKey): seq<Option<Object>>
    requires InRun(s, k)
  {
    c.plan(s.entries[k].history[s.entries[k].proc.version])
  }

  predicate Enabled(c: Compiler, s: Cluster, e: Event) {
    match e
    case Create(cr) => CRKeyOf(cr) in s.entries ==> !s.entries[CRKeyOf(cr)].live
    case Edit(cr) => CRKeyOf(cr) in s.entries && s.entries[CRKeyOf(cr)].live
    case Delete(k) => k in s.entries && s.entries[k].live
    case Get(k, v) =>
      k in s.entries && s.entries[k].proc.Idle? && s.entries[k].seen <= v < |s.entries[k].history|
    case Apply(k) =>
      InRun(s, k) && s.entries[k].proc.applied < |Plan(c, s, k)| && Plan(c, s, k)[s.entries[k].proc.applied].Some?
    case Panic(k) =>
      InRun(s, k) && s.entries[k].proc.applied < |Plan(c, s, k)| && Plan(c, s, k)[s.entries[k].proc.applied].None?
    case Publish(k) =>
      && InRun(s, k) && s.entries[k].proc.applied == |Plan(c, s, k)|
      && s.entries[k].live && s.entries[k].proc.version == |s.entries[k].history| - 1
    case Fail(k) => InRun(s, k)
    case Restart(_) => true
  }

  function StopAll(entries: map<CRKey, Entry>): map<CRKey, Entry> {
    map k | k in entries :: entries[k].(proc := Idle)
  }

  /** The status update is a new version of the resource, unless `Ready` was already set. */
  function Published(e: Entry): Entry
    requires e.history != []
  {
    if e.ready then e.(proc := Idle)
    else e.(history := e.history + [Current(e)], ready := true, proc := Idle)
  }

  function Next(c: Compiler, s: Cluster, e: Event): Cluster
    requires Enabled(c, s, e)
  {
    match e
    case Create(cr) =>
      var k := CRKeyOf(cr);
      var was := if k in s.entries then s.entries[k] else Entry([], false, false, 0, Idle);
      s.(entries := s.entries[k := was.(history := was.history + [cr], live := true, ready := false)])
    case Edit(cr) =>
      var k := CRKeyOf(cr);
      s.(entries := s.entries[k := s.entries[k].(history := s.entries[k].history + [cr])])
    case Delete(k) => s.(entries := s.entries[k := s.entries[k].(live := false)])
    case Get(k, v) => s.(entries := s.entries[k := s.entries[k].(seen := v, proc := Running(v, 0))])
    case Apply(k) =>
      var n := s.entries[k].proc.applied;
      var o := Plan(c, s, k)[n].value;
      Cluster(s.entries[k := s.entries[k].(proc := s.entries[k].proc.(applied := n + 1))], s.objects[KeyOf(o) := o])
    case Publish(k) => s.(entries := s.entries[k := Published(s.entries[k])])
    case Fail(k) => s.(entries := s.entries[k := s.entries[k].(proc := Idle)])
    case Panic(_) => s.(entries := StopAll(s.entries))
    case Restart(forgotten) =>
      s.(entries := map k | k in s.entries ::
                      s.entries[k].(proc := Idle, seen := if k in forgotten then 0 else s.entries[k].seen))
  }

  /** Every event is enabled when its turn comes. */
  predicate ValidFrom(c: Compiler, s: Cluster, es: seq<Event>)
    decreases |es|, 0
  {
    es == [] || (ValidFrom(c, s, es[..|es| - 1]) && Enabled(c, Exec(c, s, es[..|es| - 1]), es[|es| - 1]))
  }

  function Exec(c: Compiler, s: Cluster, es: seq<Event>): Cluster
    requires ValidFrom(c, s, es)
    decreases |es|, 1
  {
    if es == [] then s else Next(c, Exec(c, s, es[..|es| - 1]), es[|es| - 1])
  }

  /** The cluster after a run from the beginning. */
  predicate IsTrace(c: Compiler, es: seq<Event>) {
    ValidFrom(c, Init(), es)
  }

  function After(c: Compiler, es: seq<Event>): Cluster
    requires IsTrace(c, es)
  {
    Exec(c, Init(), es)
  }

  // ---------- what every step keeps ----------

  /** The first `n` objects that the resource assembles are in the cluster, just as assembled. */
  ghost predicate Applied(c: Compiler, objects: map<Key, Object>, cr: CR, n: nat) {
    && n <= |c.plan(cr)| && n <= |c.keys(CRKeyOf(cr))|
    && forall j :: 0 <= j < n ==>
         && c.plan(cr)[j].Some?
         && c.keys(CRKeyOf(cr))[j] in objects
         && objects[c.keys(CRKeyOf(cr))[j]] == c.plan(cr)[j].value
  }

  ghost predicate AllApplied(c: Compiler, objects: map<Key, Object>, cr: CR) {
    Applied(c, objects, cr, |c.plan(cr)|)
  }

  ghost predicate AllPresent(c: Compiler, objects: map<Key, Object>, k: CRKey) {
    forall j :: 0 <= j < |c.keys(k)| ==> c.keys(k)[j] in objects
  }

  ghost predicate EntryInv(c: Compiler, objects: map<Key, Object>, k: CRKey, e: Entry) {
    && e.history != [] && e.seen < |e.history|
    && (forall v :: 0 <= v < |e.history| ==> CRKeyOf(e.history[v]) == k)
    && (e.ready ==> AllPresent(c, objects, k))
    && (e.proc.Running? ==>
          e.proc.version == e.seen && Applied(c, objects, e.history[e.proc.version], e.proc.applied))
  }

  /** The object is the `j`-th one assembled from version `v` of resource `k`, and lies at its key. */
  predicate From(c: Compiler, s: Cluster, key: Key, o: Object, k: CRKey, v: nat, j: nat) {
    && k in s.entries && v < |s.entries[k].history| && CRKeyOf(s.entries[k].history[v]) == k
    && j < |c.keys(k)| && c.keys(k)[j] == key
    && j < |c.plan(s.entries[k].history[v])| && c.plan(s.entries[k].history[v])[j] == Some(o)
  }

  ghost predicate Derived(c: Compiler, s: Cluster, key: Key, o: Object) {
    exists k: CRKey, v: nat, j: nat :: From(c, s, key, o, k, v, j)
  }

  /** Resources and runs are in order, and the cluster holds nothing but objects assembled from some
      version of some resource, each at its own key. */
  ghost predicate Inv(c: Compiler, s: Cluster) {
    && (forall k :: k in s.entries ==> EntryInv(c, s.objects, k, s.entries[k]))
    && (forall key :: key in s.objects ==> Derived(c, s, key, s.objects[key]))
  }

  /** Applying an object for one resource leaves every other resource's objects as they are. */
  lemma WriteElsewhere(c: Compiler, objects: map<Key, Object>, k: CRKey, i: nat, o: Object, cr: CR, n: nat)
    requires Lawful(c) && i < |c.keys(k)| && Applied(c, objects, cr, n)
    requires CRKeyOf(cr) == k ==> n <= i || c.plan(cr)[i] == Some(o)
    ensures Applied(c, objects[c.keys(k)[i] := o], cr, n)
  {
  }

  lemma DerivedKept(c: Compiler, s: Cluster, t: Cluster, key: Key, o: Object)
    requires Derived(c, s, key, o)
    requires forall k :: k in s.entries ==> k in t.entries && s.entries[k].history <= t.entries[k].history
    ensures Derived(c, t, key, o)
  {
    var k: CRKey, v: nat, j: nat :| From(c, s, key, o, k, v, j);
    assert t.entries[k].history[v] == s.entries[k].history[v];
    assert From(c, t, key, o, k, v, j);
  }

  lemma ApplyKeepsInv(c: Compiler, s: Cluster, k: CRKey)
    requires Lawful(c) && Inv(c, s) && Enabled(c, s, Apply(k))
    ensures Inv(c, Next(c, s, Apply(k)))
  {
    var t := Next(c, s, Apply(k));
    var e := s.entries[k];
    var cr, n := e.history[e.proc.version], e.proc.applied;
    var o := c.plan(cr)[n].value;
    assert t.objects == s.objects[c.keys(k)[n] := o];
    forall k' | k' in t.entries ensures EntryInv(c, t.objects, k', t.entries[k']) {
      var e' := s.entries[k'];
      if e'.proc.Running? {
        WriteElsewhere(c, s.objects, k, n, o, e'.history[e'.proc.version], e'.proc.applied);
      }
    }
    forall key | key in t.objects ensures Derived(c, t, key, t.objects[key]) {
      if key == c.keys(k)[n] {
        assert From(c, t, key, o, k, e.proc.version, n);
      } else {
        DerivedKept(c, s, t, key, s.objects[key]);
      }
    }
  }

  /** The clauses of the invariant that a step other than an apply could break. */
  ghost predicate KeepsEntries(c: Compiler, s: Cluster, t: Cluster) {
    && t.objects == s.objects
    && (forall k :: k in t.entries ==> EntryInv(c, t.objects, k, t.entries[k]))
    && (forall k :: k in s.entries ==> k in t.entries && s.entries[k].history <= t.entries[k].history)
  }

  lemma UserKeepsEntries(c: Compiler, s: Cluster, e: Event)
    requires Inv(c, s) && Enabled(c, s, e) && (e.Create? || e.Edit? || e.Delete?)
    ensures KeepsEntries(c, s, Next(c, s, e))
  {
  }

  /** A step that concerns one resource's run, and applies nothing. */
  lemma RunKeepsEntries(c: Compiler, s: Cluster, e: Event)
    requires Lawful(c) && Inv(c, s) && Enabled(c, s, e) && (e.Get? || e.Publish? || e.Fail?)
    ensures KeepsEntries(c, s, Next(c, s, e))
  {
    var t := Next(c, s, e);
    assert EntryInv(c, s.objects, e.k, s.entries[e.k]);
    assert EntryInv(c, t.objects, e.k, t.entries[e.k]);
    forall k | k in t.entries ensures EntryInv(c, t.objects, k, t.entries[k]) {
      assert k != e.k ==> t.entries[k] == s.entries[k];
    }
  }

  /** A step that stops every run. */
  lemma CrashKeepsEntries(c: Compiler, s: Cluster, e: Event)
    requires Inv(c, s) && Enabled(c, s, e) && (e.Panic? || e.Restart?)
    ensures KeepsEntries(c, s, Next(c, s, e))
  {
  }

  lemma OtherKeepsEntries(c: Compiler, s: Cluster, e: Event)
    requires Lawful(c) && Inv(c, s) && Enabled(c, s, e) && !e.Apply?
    ensures KeepsEntries(c, s, Next(c, s, e))
  {
    if e.Create? || e.Edit? || e.Delete? {
      UserKeepsEntries(c, s, e);
    } else if e.Panic? || e.Restart? {
      CrashKeepsEntries(c, s, e);
    } else {
      RunKeepsEntries(c, s, e);
    }
  }

  lemma StepKeepsInv(c: Compiler, s: Cluster, e: Event)
    requires Lawful(c) && Inv(c, s) && Enabled(c, s, e)
    ensures Inv(c, Next(c, s, e))
  {
    if e.Apply? {
      ApplyKeepsInv(c, s, e.k);
    } else {
      OtherKeepsEntries(c, s, e);
      forall key | key in s.objects ensures Derived(c, Next(c, s, e), key, s.objects[key]) {
        DerivedKept(c, s, Next(c, s, e), key, s.objects[key]);
      }
    }
  }

  lemma {:induction false} TraceInv(c: Compiler, es: seq<Event>)
    requires Lawful(c) && IsTrace(c, es)
    ensures Inv(c, After(c, es))
  {
    if es != [] {
      TraceInv(c, es[..|es| - 1]);
      StepKeepsInv(c, After(c, es[..|es| - 1]), es[|es| - 1]);
    }
  }

  // ---------- Ready ----------

  /** `Ready` is written only when every derived object is in the cluster just as assembled from the
      resource's current spec, and only if none of them panics. */
  lemma PublishIsTruthful(c: Compiler, es: seq<Event>, k: CRKey)
    requires Lawful(c) && IsTrace(c, es) && Enabled(c, After(c, es), Publish(k))
    ensures AllApplied(c, After(c, es).objects, Current(After(c, es).entries[k]))
  {
    TraceInv(c, es);
  }

  /** In every reachable state, `Ready` means that all derived objects are in the cluster. */
  lemma ReadyMeansPresent(c: Compiler, es: seq<Event>, k: CRKey)
    requires Lawful(c) && IsTrace(c, es) && k in After(c, es).entries && After(c, es).entries[k].ready
    ensures AllPresent(c, After(c, es).objects, k)
  {
    TraceInv(c, es);
  }

  predicate Assembles(c: Compiler, cr: CR) {
    forall j :: 0 <= j < |c.plan(cr)| ==> c.plan(cr)[j].Some?
  }

  ghost predicate SomeVersionAssembles(c: Compiler, e: Entry) {
    exists v :: 0 <= v < |e.history| && Assembles(c, e.history[v])
  }

  lemma ReadyStep(c: Compiler, s: Cluster, e: Event, k: CRKey)
    requires Lawful(c) && Inv(c, s) && Enabled(c, s, e)
    requires k in s.entries && s.entries[k].ready ==> SomeVersionAssembles(c, s.entries[k])
    ensures var t := Next(c, s, e); k in t.entries && t.entries[k].ready ==> SomeVersionAssembles(c, t.entries[k])
  {
    var t := Next(c, s, e);
    if k in t.entries && t.entries[k].ready {
      assert k in s.entries && s.entries[k].history <= t.entries[k].history;
      var v: nat;
      if e == Publish(k) {
        v := |s.entries[k].history| - 1;
        assert Assembles(c, s.entries[k].history[v]);
      } else {
        v :| v < |s.entries[k].history| && Assembles(c, s.entries[k].history[v]);
      }
      assert t.entries[k].history[v] == s.entries[k].history[v];
    }
  }

  /** A resource none of whose versions can be assembled without a panic is never `Ready`. */
  lemma {:induction false} ReadyNeedsAssembly(c: Compiler, es: seq<Event>, k: CRKey)
    requires Lawful(c) && IsTrace(c, es)
    ensures k in After(c, es).entries && After(c, es).entries[k].ready ==>
              SomeVersionAssembles(c, After(c, es).entries[k])
  {
    if es != [] {
      var front := es[..|es| - 1];
      ReadyNeedsAssembly(c, front, k);
      TraceInv(c, front);
      ReadyStep(c, After(c, front), es[|es| - 1], k);
    }
  }

  // ---------- convergence ----------

  /** The resource that an event is about; a crash is about none. */
  function Subject(e: Event): Option<CRKey> {
    match e
    case Create(cr) => Some(CRKeyOf(cr))
    case Edit(cr) => Some(CRKeyOf(cr))
    case Delete(k) => Some(k)
    case Get(k, _) => Some(k)
    case Apply(k) => Some(k)
    case Publish(k) => Some(k)
    case Fail(k) => Some(k)
    case Panic(_) => None
    case Restart(_) => None
  }

  predicate UserTouches(e: Event, k: CRKey) {
    (e.Create? || e.Edit? || e.Delete?) && Subject(e) == Some(k)
  }

  /** A user touches the resource, or the operator starts again with a cache that may show it as it was. */
  predicate Disturbs(e: Event, k: CRKey) {
    UserTouches(e, k) || (e.Restart? && k in e.forgotten)
  }

  /** The resource exists, and has had an error-free run after the last step that disturbed it. */
  ghost predicate Settled(es: seq<Event>, k: CRKey) {
    exists i :: 0 <= i < |es| && es[i] == Publish(k) && forall j :: i < j < |es| ==> !Disturbs(es[j], k)
  }

  /** Every version the operator can still act on has the current spec, and its objects are in place. */
  ghost predicate Synced(c: Compiler, s: Cluster, k: CRKey) {
    && k in s.entries && s.entries[k].live && s.entries[k].ready
    && s.entries[k].history != []
    && (forall v :: s.entries[k].seen <= v < |s.entries[k].history| ==>
          s.entries[k].history[v] == Current(s.entries[k]))
    && AllApplied(c, s.objects, Current(s.entries[k]))
  }

  lemma PublishSyncs(c: Compiler, s: Cluster, k: CRKey)
    requires Lawful(c) && Inv(c, s) && Enabled(c, s, Publish(k))
    ensures Synced(c, Next(c, s, Publish(k)), k)
  {
  }

  lemma ApplyKeepsSynced(c: Compiler, s: Cluster, k': CRKey, k: CRKey)
    requires Lawful(c) && Inv(c, s) && Synced(c, s, k) && Enabled(c, s, Apply(k'))
    ensures Synced(c, Next(c, s, Apply(k')), k)
  {
    var e' := s.entries[k'];
    var cr', cr := e'.history[e'.proc.version], Current(s.entries[k]);
    var n := e'.proc.applied;
    WriteElsewhere(c, s.objects, k', n, c.plan(cr')[n].value, cr, |c.plan(cr)|);
  }

  /** From then on, nothing but such a step disturbs it: neither later runs of its own, on however
      stale a version the cache still shows, nor failures, crashes or other resources. */
  lemma StepKeepsSynced(c: Compiler, s: Cluster, e: Event, k: CRKey)
    requires Lawful(c) && Inv(c, s) && Synced(c, s, k) && Enabled(c, s, e) && !Disturbs(e, k)
    ensures Synced(c, Next(c, s, e), k)
  {
    if e.Apply? {
      ApplyKeepsSynced(c, s, e.k, k);
    }
  }

  lemma {:induction false} SettledIsSynced(c: Compiler, es: seq<Event>, k: CRKey)
    requires Lawful(c) && IsTrace(c, es) && Settled(es, k)
    ensures Synced(c, After(c, es), k)
  {
    var front, last := es[..|es| - 1], es[|es| - 1];
    TraceInv(c, front);
    if last == Publish(k) {
      PublishSyncs(c, After(c, front), k);
    } else {
      var i :| 0 <= i < |es| && es[i] == Publish(k) && forall j :: i < j < |es| ==> !Disturbs(es[j], k);
      assert front[i] == Publish(k);
      SettledIsSynced(c, front, k);
      StepKeepsSynced(c, After(c, front), last, k);
    }
  }

  /** What a step of `Restart` can undo: a cache that shows an old version again makes the next run
      put that version's objects back, where they differ from the current ones. */
  lemma ForgettingUnsyncs(c: Compiler, s: Cluster, k: CRKey, v: nat)
    requires Lawful(c) && Inv(c, s) && Synced(c, s, k) && v < |s.entries[k].history|
    requires |c.plan(s.entries[k].history[v])| > 0 && c.plan(s.entries[k].history[v])[0].Some?
    requires c.plan(s.entries[k].history[v])[0] != c.plan(Current(s.entries[k]))[0]
    ensures Enabled(c, s, Restart({k}))
    ensures var s1 := Next(c, s, Restart({k}));
            && Enabled(c, s1, Get(k, v))
            && var s2 := Next(c, s1, Get(k, v));
               Enabled(c, s2, Apply(k)) && !Synced(c, Next(c, s2, Apply(k)), k)
  {
    var s1 := Next(c, s, Restart({k}));
    var s2 := Next(c, s1, Get(k, v));
    assert CRKeyOf(s.entries[k].history[v]) == k && CRKeyOf(Current(s.entries[k])) == k;
    assert Next(c, s2, Apply(k)).objects[c.keys(k)[0]] == c.plan(s.entries[k].history[v])[0].value;
  }

  predicate Live(s: Cluster, k: CRKey) {
    k in s.entries && s.entries[k].live && s.entries[k].history != []
  }

  /** An existing resource asks, in its current spec, for this object at this key. */
  predicate AsksFor(c: Compiler, s: Cluster, key: Key, o: Object, k: CRKey, j: nat) {
    && Live(s, k) && j < |c.keys(k)| && c.keys(k)[j] == key
    && j < |c.plan(Current(s.entries[k]))| && c.plan(Current(s.entries[k]))[j] == Some(o)
  }

  predicate LiesAt(c: Compiler, s: Cluster, key: Key, k: CRKey, j: nat) {
    k in s.entries && j < |c.keys(k)| && c.keys(k)[j] == key
  }

  /** A settled resource asks for this object at this key. */
  ghost predicate SettledAsks(c: Compiler, es: seq<Event>, key: Key, o: Object)
    requires IsTrace(c, es)
  {
    exists k: CRKey, j: nat :: AsksFor(c, After(c, es), key, o, k, j) && Settled(es, k)
  }

  /** The key belongs to a resource that is not settled: it was deleted, or cannot be assembled, or its
      run is still to come. */
  ghost predicate Pending(c: Compiler, es: seq<Event>, key: Key)
    requires IsTrace(c, es)
  {
    exists k: CRKey, j: nat :: LiesAt(c, After(c, es), key, k, j) && !Settled(es, k)
  }

  predicate Creates(e: Event, k: CRKey) {
    e.Create? && CRKeyOf(e.cr) == k
  }

  /** The `i`-th event wrote `Ready`, and the resource was not created after it. */
  predicate PublishedAt(es: seq<Event>, k: CRKey, i: nat) {
    i < |es| && es[i] == Publish(k) && forall j :: i < j < |es| ==> !Creates(es[j], k)
  }

  /** The resource has had a run that wrote `Ready` since it was last created. */
  ghost predicate PublishedSince(es: seq<Event>, k: CRKey) {
    exists i: nat :: PublishedAt(es, k, i)
  }

  lemma PublishedStill(es: seq<Event>, k: CRKey)
    requires es != [] && PublishedSince(es[..|es| - 1], k) && !Creates(es[|es| - 1], k)
    ensures PublishedSince(es, k)
  {
    var i: nat :| PublishedAt(es[..|es| - 1], k, i);
    assert PublishedAt(es, k, i);
  }

  /** No resource is `Ready` by what an earlier one of its name left behind. */
  lemma {:induction false} ReadyWasPublished(c: Compiler, es: seq<Event>, k: CRKey)
    requires IsTrace(c, es) && k in After(c, es).entries && After(c, es).entries[k].ready
    ensures PublishedSince(es, k)
  {
    var front, last := es[..|es| - 1], es[|es| - 1];
    if last == Publish(k) {
      assert PublishedAt(es, k, |es| - 1);
    } else {
      ReadyWasPublished(c, front, k);
      PublishedStill(es, k);
    }
  }

  /** The `i`-th event started a run of the resource on version `v`, and no crash came after it. */
  predicate StartedAt(es: seq<Event>, k: CRKey, v: nat, i: nat) {
    i < |es| && es[i] == Get(k, v) && forall j :: i < j < |es| ==> !es[j].Panic? && !es[j].Restart?
  }

  ghost predicate StartedSince(es: seq<Event>, k: CRKey, v: nat) {
    exists i: nat :: StartedAt(es, k, v, i)
  }

  lemma StartedStill(es: seq<Event>, k: CRKey, v: nat)
    requires es != [] && StartedSince(es[..|es| - 1], k, v) && !es[|es| - 1].Panic? && !es[|es| - 1].Restart?
    ensures StartedSince(es, k, v)
  {
    var i: nat :| StartedAt(es[..|es| - 1], k, v, i);
    assert StartedAt(es, k, v, i);
  }

  /** A crash, be it an assembly that panics for whichever resource, ends the runs of all. */
  lemma {:induction false} NoRunOutlivesACrash(c: Compiler, es: seq<Event>, k: CRKey)
    requires IsTrace(c, es) && k in After(c, es).entries && After(c, es).entries[k].proc.Running?
    ensures StartedSince(es, k, After(c, es).entries[k].proc.version)
  {
    var front, last := es[..|es| - 1], es[|es| - 1];
    if last.Get? && last.k == k {
      assert StartedAt(es, k, last.version, |es| - 1);
    } else {
      NoRunOutlivesACrash(c, front, k);
      StartedStill(es, k, After(c, es).entries[k].proc.version);
    }
  }

  /** The status says `Ready` from such an update on, and until the resource is created anew: neither an
      edit nor a deletion, a failure or a crash takes it back. */
  lemma OnlyCreateTakesReadyBack(c: Compiler, s: Cluster, e: Event, k: CRKey)
    requires Enabled(c, s, e) && k in s.entries
    ensures k in Next(c, s, e).entries
    ensures Next(c, s, e).entries[k].ready <==>
            e == Publish(k) || (s.entries[k].ready && !Creates(e, k))
  {
  }

  /** The resource has had a newer version than `v`. */
  predicate Superseded(s: Cluster, k: CRKey, v: nat) {
    k in s.entries && v + 1 < |s.entries[k].history|
  }

  lemma StepKeepsSuperseded(c: Compiler, s: Cluster, e: Event, k: CRKey, v: nat)
    requires Enabled(c, s, e) && Superseded(s, k, v)
    ensures Superseded(Next(c, s, e), k, v)
  {
  }

  /** Setting `Ready` is an update like any other: from then on no run that had read the resource before
      it can write the status, however long that run goes on or how often it is started anew. */
  lemma {:induction false} ReadyOutdatesReaders(c: Compiler, es: seq<Event>, k: CRKey, more: seq<Event>)
    requires IsTrace(c, es) && Enabled(c, After(c, es), Publish(k)) && !After(c, es).entries[k].ready
    requires IsTrace(c, es + [Publish(k)] + more)
    ensures var v, t := After(c, es).entries[k].proc.version, After(c, es + [Publish(k)] + more);
            && Superseded(t, k, v)
            && (InRun(t, k) && t.entries[k].proc.version <= v ==> !Enabled(c, t, Publish(k)))
    decreases |more|
  {
    if more == [] {
      assert es + [Publish(k)] + [] == es + [Publish(k)];
      assert (es + [Publish(k)])[..|es|] == es;
    } else {
      var v, all, front := After(c, es).entries[k].proc.version, es + [Publish(k)] + more, more[..|more| - 1];
      assert all[..|all| - 1] == es + [Publish(k)] + front;
      ReadyOutdatesReaders(c, es, k, front);
      StepKeepsSuperseded(c, After(c, es + [Publish(k)] + front), all[|all| - 1], k, v);
    }
  }

  /** In every history: each settled resource's objects are in the cluster as its current spec asks, and
      every object in the cluster is one of those or lies at a place of a resource that is not settled. */
  lemma SettledPart(c: Compiler, es: seq<Event>)
    requires Lawful(c) && IsTrace(c, es)
    ensures var s := After(c, es);
            && (forall k :: Settled(es, k) ==> Live(s, k) && AllApplied(c, s.objects, Current(s.entries[k])))
            && (forall key :: key in s.objects ==> SettledAsks(c, es, key, s.objects[key]) || Pending(c, es, key))
  {
    var s := After(c, es);
    TraceInv(c, es);
    forall k | Settled(es, k) ensures Live(s, k) && AllApplied(c, s.objects, Current(s.entries[k])) {
      SettledIsSynced(c, es, k);
    }
    forall key | key in s.objects ensures SettledAsks(c, es, key, s.objects[key]) || Pending(c, es, key) {
      var k: CRKey, v: nat, j: nat :| From(c, s, key, s.objects[key], k, v, j);
      if Settled(es, k) {
        LiveObjectIsDesired(c, s, key, k, j);
        assert AsksFor(c, s, key, s.objects[key], k, j);
      } else {
        assert LiesAt(c, s, key, k, j);
      }
    }
  }

  lemma LiveObjectIsDesired(c: Compiler, s: Cluster, key: Key, k: CRKey, j: nat)
    requires Lawful(c) && Inv(c, s) && key in s.objects && Live(s, k)
    requires AllApplied(c, s.objects, Current(s.entries[k])) && j < |c.keys(k)| && c.keys(k)[j] == key
    ensures AsksFor(c, s, key, s.objects[key], k, j)
  {
    assert CRKeyOf(Current(s.entries[k])) == k;
  }

  /** Two histories in each of which a resource is settled, with the same spec, agree on its objects,
      whatever else happened in either. */
  lemma SettledAgree(c: Compiler, es: seq<Event>, es': seq<Event>, k: CRKey, j: nat)
    requires Lawful(c) && IsTrace(c, es) && IsTrace(c, es') && Settled(es, k) && Settled(es', k) && j < |c.keys(k)|
    requires Live(After(c, es), k) && Live(After(c, es'), k)
    requires Current(After(c, es).entries[k]) == Current(After(c, es').entries[k])
    ensures c.keys(k)[j] in After(c, es).objects && SameAt(After(c, es).objects, After(c, es').objects, c.keys(k)[j])
  {
    TraceInv(c, es);
    SettledIsSynced(c, es, k);
    SettledIsSynced(c, es', k);
    assert CRKeyOf(Current(After(c, es).entries[k])) == k;
  }

  /** Every resource that exists is settled. */
  ghost predicate AllSettled(c: Compiler, es: seq<Event>)
    requires IsTrace(c, es)
  {
    forall k :: k in After(c, es).entries && After(c, es).entries[k].live ==> Settled(es, k)
  }

  ghost predicate Desired(c: Compiler, s: Cluster, key: Key, o: Object) {
    exists k: CRKey, j: nat :: AsksFor(c, s, key, o, k, j)
  }

  predicate LiesAtDead(c: Compiler, s: Cluster, key: Key, k: CRKey, j: nat) {
    LiesAt(c, s, key, k, j) && !s.entries[k].live
  }

  /** The key belongs to a resource that was deleted. */
  ghost predicate LeftBehind(c: Compiler, s: Cluster, key: Key) {
    exists k: CRKey, j: nat :: LiesAtDead(c, s, key, k, j)
  }

  /** The cluster holds all that the existing resources ask for, and beyond that only what deleted
      ones have left behind. */
  ghost predicate IsUnionOfDesired(c: Compiler, s: Cluster) {
    && (forall k :: k in s.entries && s.entries[k].live ==>
          s.entries[k].history != [] && AllApplied(c, s.objects, Current(s.entries[k])))
    && (forall key :: key in s.objects ==> Desired(c, s, key, s.objects[key]) || LeftBehind(c, s, key))
  }

  /** Whatever the interleaving, once every resource that exists is settled the cluster holds exactly
      the union of what they ask for, but for what deleted resources have left behind. */
  lemma Convergence(c: Compiler, es: seq<Event>)
    requires Lawful(c) && IsTrace(c, es) && AllSettled(c, es)
    ensures IsUnionOfDesired(c, After(c, es))
  {
    var s := After(c, es);
    SettledPart(c, es);
    forall key | key in s.objects ensures Desired(c, s, key, s.objects[key]) || LeftBehind(c, s, key) {
      if SettledAsks(c, es, key, s.objects[key]) {
        var k: CRKey, j: nat :| AsksFor(c, s, key, s.objects[key], k, j) && Settled(es, k);
      } else {
        var k: CRKey, j: nat :| LiesAt(c, s, key, k, j) && !Settled(es, k);
        assert LiesAtDead(c, s, key, k, j);
      }
    }
  }

  /** The objects that no deleted resource has left behind. */
  ghost function LivePart(c: Compiler, s: Cluster): map<Key, Object> {
    map key | key in s.objects && !LeftBehind(c, s, key) :: s.objects[key]
  }

  /** The same resources exist, with the same current specs. */
  ghost predicate SameResources(s: Cluster, t: Cluster) {
    forall k :: (Live(s, k) <==> Live(t, k)) && (Live(s, k) ==> Current(s.entries[k]) == Current(t.entries[k]))
  }

  lemma DesiredInBoth(c: Compiler, s: Cluster, t: Cluster, key: Key, k: CRKey, j: nat)
    requires Lawful(c) && Inv(c, s) && IsUnionOfDesired(c, t) && SameResources(s, t)
    requires key in s.objects && AsksFor(c, s, key, s.objects[key], k, j)
    ensures key in LivePart(c, t) && LivePart(c, t)[key] == s.objects[key]
  {
    assert Live(t, k) && AllApplied(c, t.objects, Current(t.entries[k]));
    assert CRKeyOf(Current(s.entries[k])) == k;
  }

  ghost predicate Within(a: map<Key, Object>, b: map<Key, Object>) {
    forall key :: key in a ==> key in b && b[key] == a[key]
  }

  lemma UnionWithin(c: Compiler, s: Cluster, t: Cluster)
    requires Lawful(c) && Inv(c, s)
    requires IsUnionOfDesired(c, s) && IsUnionOfDesired(c, t) && SameResources(s, t)
    ensures Within(LivePart(c, s), LivePart(c, t))
  {
    forall key | key in LivePart(c, s)
      ensures key in LivePart(c, t) && LivePart(c, t)[key] == LivePart(c, s)[key]
    {
      var k: CRKey, j: nat :| AsksFor(c, s, key, s.objects[key], k, j);
      DesiredInBoth(c, s, t, key, k, j);
    }
  }

  lemma WithinBoth(a: map<Key, Object>, b: map<Key, Object>)
    requires Within(a, b) && Within(b, a)
    ensures a == b
  {
  }

  /** Two histories that end in the same settled resources end in the same objects, but for what
      deleted resources have left behind, however differently their runs were interleaved, repeated, or
      failed on the way. */
  lemma Confluence(c: Compiler, es: seq<Event>, es': seq<Event>)
    requires Lawful(c) && IsTrace(c, es) && IsTrace(c, es') && AllSettled(c, es) && AllSettled(c, es')
    requires SameResources(After(c, es), After(c, es'))
    ensures LivePart(c, After(c, es)) == LivePart(c, After(c, es'))
  {
    var s, t := After(c, es), After(c, es');
    Convergence(c, es);
    Convergence(c, es');
    TraceInv(c, es);
    TraceInv(c, es');
    UnionWithin(c, s, t);
    UnionWithin(c, t, s);
    WithinBoth(LivePart(c, s), LivePart(c, t));
  }

  // ---------- commutation ----------

  /** What an event writes to the cluster's objects. */
  function Writes(c: Compiler, s: Cluster, e: Event): map<Key, Object>
    requires Enabled(c, s, e)
  {
    if e.Apply? then
      var o := Plan(c, s, e.k)[s.entries[e.k].proc.applied].value;
      map[KeyOf(o) := o]
    else map[]
  }

  ghost predicate SameEntry(s: Cluster, t: Cluster, k: CRKey) {
    (k in s.entries <==> k in t.entries) && (k in s.entries ==> s.entries[k] == t.entries[k])
  }

  /** A step looks at its own resource only, and changes that and the objects it writes. */
  lemma StepIsLocal(c: Compiler, s: Cluster, t: Cluster, e: Event, k: CRKey)
    requires Subject(e) == Some(k) && SameEntry(s, t, k) && Enabled(c, s, e)
    ensures Enabled(c, t, e) && Writes(c, t, e) == Writes(c, s, e)
    ensures k in Next(c, s, e).entries
    ensures Next(c, t, e).entries == t.entries[k := Next(c, s, e).entries[k]]
    ensures Next(c, t, e).objects == t.objects + Writes(c, s, e)
  {
  }

  lemma WritesApart(c: Compiler, s: Cluster, e: Event, e': Event)
    requires Lawful(c) && Inv(c, s) && Enabled(c, s, e) && Enabled(c, s, e') && Subject(e) != Subject(e')
    ensures Writes(c, s, e).Keys !! Writes(c, s, e').Keys
  {
  }

  /** Two steps about different resources, one after the other, make both changes. */
  lemma ApartSteps(c: Compiler, s: Cluster, e: Event, k: CRKey, e': Event, k': CRKey)
    requires Enabled(c, s, e) && Enabled(c, s, e')
    requires Subject(e) == Some(k) && Subject(e') == Some(k') && k != k'
    ensures k in Next(c, s, e).entries && k' in Next(c, s, e').entries
    ensures Enabled(c, Next(c, s, e), e')
    ensures Next(c, Next(c, s, e), e').entries ==
            s.entries[k := Next(c, s, e).entries[k]][k' := Next(c, s, e').entries[k']]
    ensures Next(c, Next(c, s, e), e').objects == s.objects + Writes(c, s, e) + Writes(c, s, e')
  {
    StepIsLocal(c, s, s, e, k);
    StepIsLocal(c, s, Next(c, s, e), e', k');
  }

  /** Steps about different resources write different objects and commute; neither enables nor
      disables the other. */
  lemma StepsCommute(c: Compiler, s: Cluster, e: Event, e': Event)
    requires Lawful(c) && Inv(c, s) && Enabled(c, s, e) && Enabled(c, s, e')
    requires Subject(e).Some? && Subject(e').Some? && Subject(e) != Subject(e')
    ensures Writes(c, s, e).Keys !! Writes(c, s, e').Keys
    ensures Enabled(c, Next(c, s, e), e') && Enabled(c, Next(c, s, e'), e)
    ensures Next(c, Next(c, s, e), e') == Next(c, Next(c, s, e'), e)
  {
    var k, k' := Subject(e).value, Subject(e').value;
    WritesApart(c, s, e, e');
    ApartSteps(c, s, e, k, e', k');
    ApartSteps(c, s, e', k', e, k);
    SumsCommute(s.objects, Writes(c, s, e), Writes(c, s, e'));
    UpdatesCommute(s.entries, k, Next(c, s, e).entries[k], k', Next(c, s, e').entries[k']);
  }
}
