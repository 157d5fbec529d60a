/** What the runs of the ChiaCA controller keep of the generator's objects: runs of different resources
    write apart, and what a resource that was delivered asks for stays as assembled. */
module CASync {
  import opened Kubernetes
  import opened CustomResources
  import opened GeneratorObjects
  import opened CAProtocol
  import opened CATheorems

  // ---------- objects as assembled ----------

  /** The four places of a resource's objects, in the order they are applied. */
  function Places(k: NamespacedName): (r: seq<Key>)
    ensures |r| == 4
  {
    SetupKeys(k) + [JobKey(k)]
  }

  /** The four objects of a resource. */
  function Generated(ca: ChiaCA): (r: seq<Object>)
    ensures |r| == 4
  {
    SetupObjects(ca) + [AssembleJobSpec(ca)]
  }

  lemma GeneratedAtPlaces(ca: ChiaCA, j: nat)
    requires j < 4
    ensures KeyOf(Generated(ca)[j]) == Places(CAKeyOf(ca))[j]
  {
    SetupObjectsAtKeys(ca, if j < 3 then j else 0);
  }

  /** The first `n` of the resource's objects are in the cluster just as assembled. */
  predicate InPlace(objects: map<Key, Object>, ca: ChiaCA, n: nat)
    requires n <= 4
  {
    forall j :: 0 <= j < n ==>
      Places(CAKeyOf(ca))[j] in objects && objects[Places(CAKeyOf(ca))[j]] == Generated(ca)[j]
  }

  /** An apply for one resource disturbs no object in place of another, and of its own only those
      that it changes. */
  lemma WriteElsewhere(objects: map<Key, Object>, ca: ChiaCA, i: nat, other: ChiaCA, n: nat)
    requires i < 4 && n <= 4 && InPlace(objects, other, n)
    requires CAKeyOf(ca) == CAKeyOf(other) ==> n <= i || Generated(ca)[i] == Generated(other)[i]
    ensures InPlace(objects[Places(CAKeyOf(ca))[i] := Generated(ca)[i]], other, n)
  {
    forall j | 0 <= j < n
      ensures Places(CAKeyOf(other))[j] == Places(CAKeyOf(ca))[i] ==> CAKeyOf(ca) == CAKeyOf(other) && i == j
    {
      if Places(CAKeyOf(other))[j] == Places(CAKeyOf(ca))[i] {
        GeneratorKeysDisjoint(CAKeyOf(ca), i, CAKeyOf(other), j);
      }
    }
  }

  // ---------- what runs keep in place ----------

  /** How many objects a run has applied. */
  function AppliedBy(p: Proc): nat {
    match p
    case Idle => 0
    case Setup(_, n) => n
    case Launching(_) => 3
    case Polling(_, _) => 4
    case Pausing(_, _) => 4
    case Publishing(_) => 4
  }

  /** What the run has applied is still in place. */
  predicate RunInPlace(objects: map<Key, Object>, e: Entry) {
    !e.proc.Idle? ==>
      e.proc.version < |e.history| && AppliedBy(e.proc) <= 4
      && InPlace(objects, e.history[e.proc.version], AppliedBy(e.proc))
  }

  ghost predicate AllInPlace(s: Cluster) {
    forall k :: k in s.entries ==> RunInPlace(s.objects, s.entries[k])
  }

  predicate IsApply(e: Event) {
    e.ApplySetup? || e.ApplyJob?
  }

  /** What an apply writes, and where; of the entries it changes only where its own run stands. */
  lemma ApplyWrites(s: Cluster, e: Event)
    requires Inv(s) && Enabled(s, e) && IsApply(e)
    ensures var was, i := s.entries[e.k], AppliedBy(s.entries[e.k].proc);
            var ca, now := CAProtocol.Subject(s, e.k), Next(s, e).entries[e.k].proc;
            && i < 4 && CAKeyOf(ca) == e.k
            && Next(s, e).objects == s.objects[Places(e.k)[i] := Generated(ca)[i]]
            && Next(s, e).entries == s.entries[e.k := was.(proc := now)]
            && !now.Idle? && now.version == was.proc.version && AppliedBy(now) == i + 1
  {
    assert EntryInv(s, e.k, s.entries[e.k]);
    GeneratedAtPlaces(CAProtocol.Subject(s, e.k), AppliedBy(s.entries[e.k].proc));
  }

  lemma ApplyKeepsOthers(s: Cluster, e: Event, k: NamespacedName)
    requires Inv(s) && Enabled(s, e) && IsApply(e) && k in s.entries && k != e.k && RunInPlace(s.objects, s.entries[k])
    ensures k in Next(s, e).entries && RunInPlace(Next(s, e).objects, Next(s, e).entries[k])
  {
    ApplyWrites(s, e);
    var was := s.entries[k];
    if !was.proc.Idle? {
      assert EntryInv(s, k, was);
      WriteElsewhere(s.objects, CAProtocol.Subject(s, e.k), AppliedBy(s.entries[e.k].proc),
                     was.history[was.proc.version], AppliedBy(was.proc));
    }
  }

  lemma ApplyKeepsOwn(s: Cluster, e: Event)
    requires Inv(s) && Enabled(s, e) && IsApply(e) && RunInPlace(s.objects, s.entries[e.k])
    ensures RunInPlace(Next(s, e).objects, Next(s, e).entries[e.k])
  {
    ApplyWrites(s, e);
    var ca, i := CAProtocol.Subject(s, e.k), AppliedBy(s.entries[e.k].proc);
    WriteElsewhere(s.objects, ca, i, ca, i);
  }

  /** A run goes on as it was, or starts, or is over. */
  predicate GoesOn(e: Entry, e': Entry) {
    && e.history <= e'.history
    && (e'.proc.Idle? || (e'.proc.version < |e'.history| && AppliedBy(e'.proc) == 0)
        || (!e.proc.Idle? && e'.proc.version == e.proc.version && AppliedBy(e'.proc) == AppliedBy(e.proc)))
  }

  lemma OtherGoesOn(s: Cluster, e: Event, k: NamespacedName)
    requires Enabled(s, e) && !IsApply(e) && k in Next(s, e).entries
    ensures Next(s, e).objects == s.objects
    ensures if k in s.entries then GoesOn(s.entries[k], Next(s, e).entries[k]) else Next(s, e).entries[k].proc.Idle?
  {
  }

  lemma GoingOnKeeps(objects: map<Key, Object>, e: Entry, e': Entry)
    requires RunInPlace(objects, e) && GoesOn(e, e')
    ensures RunInPlace(objects, e')
  {
  }

  lemma StepKeepsInPlace(s: Cluster, e: Event)
    requires Inv(s) && Enabled(s, e) && AllInPlace(s)
    ensures AllInPlace(Next(s, e))
  {
    var t := Next(s, e);
    forall k | k in t.entries ensures RunInPlace(t.objects, t.entries[k]) {
      if !IsApply(e) {
        OtherGoesOn(s, e, k);
        if k in s.entries {
          GoingOnKeeps(s.objects, s.entries[k], t.entries[k]);
        }
      } else if k == e.k {
        ApplyKeepsOwn(s, e);
      } else {
        ApplyKeepsOthers(s, e, k);
      }
    }
  }

  lemma {:induction false} TraceInPlace(es: seq<Event>)
    requires IsTrace(es)
    ensures AllInPlace(After(es))
  {
    if es != [] {
      var front, e := es[..|es| - 1], es[|es| - 1];
      TraceInPlace(front);
      TraceInv(front);
      StepKeepsInPlace(After(front), e);
    }
  }

  // ---------- settled resources ----------

  /** A user touches the resource, or the operator starts again with a cache that may show it as it was. */
  predicate Disturbs(e: Event, k: NamespacedName) {
    UserTouches(e, k) || (e.Restart? && k in e.forgotten)
  }

  /** The resource has had a run that wrote `Ready` after the last step that disturbed it. */
  ghost predicate Delivered(es: seq<Event>, k: NamespacedName) {
    exists i :: 0 <= i < |es| && es[i] == Publish(k) && forall j :: i < j < |es| ==> !Disturbs(es[j], k)
  }

  /** Every version the operator can still act on has the current spec, and all four objects are in place. */
  predicate Synced(s: Cluster, k: NamespacedName) {
    && k in s.entries && s.entries[k].live && s.entries[k].ready && s.entries[k].history != []
    && (forall v :: s.entries[k].seen <= v < |s.entries[k].history| ==>
          s.entries[k].history[v] == Current(s.entries[k]))
    && InPlace(s.objects, Current(s.entries[k]), 4)
  }

  /** What a run has found when it writes `Ready`. */
  lemma PublishFinds(s: Cluster, k: NamespacedName)
    requires Inv(s) && AllInPlace(s) && Enabled(s, Publish(k))
    ensures s.entries[k].seen == |s.entries[k].history| - 1 && InPlace(s.objects, Current(s.entries[k]), 4)
  {
    assert EntryInv(s, k, s.entries[k]) && RunInPlace(s.objects, s.entries[k]);
  }

  lemma PublishedSyncs(s: Cluster, k: NamespacedName)
    requires Enabled(s, Publish(k))
    requires s.entries[k].seen == |s.entries[k].history| - 1 && InPlace(s.objects, Current(s.entries[k]), 4)
    ensures Synced(Next(s, Publish(k)), k)
  {
  }

  lemma ApplyKeepsSynced(s: Cluster, e: Event, k: NamespacedName)
    requires Inv(s) && Enabled(s, e) && IsApply(e) && Synced(s, k)
    ensures Synced(Next(s, e), k)
  {
    ApplyWrites(s, e);
    assert EntryInv(s, e.k, s.entries[e.k]) && EntryInv(s, k, s.entries[k]);
    WriteElsewhere(s.objects, CAProtocol.Subject(s, e.k), AppliedBy(s.entries[e.k].proc), Current(s.entries[k]), 4);
  }

  lemma OtherKeepsSynced(s: Cluster, e: Event, k: NamespacedName)
    requires Enabled(s, e) && Synced(s, k) && EntryInv(s, k, s.entries[k]) && !Disturbs(e, k) && !IsApply(e)
    ensures Synced(Next(s, e), k)
  {
    assert Next(s, e).objects == s.objects;
  }

  /** From then on nothing but such a step disturbs it: neither later runs of its own, nor failures,
      crashes, pods or other resources. */
  lemma StepKeepsSynced(s: Cluster, e: Event, k: NamespacedName)
    requires Inv(s) && Enabled(s, e) && Synced(s, k) && !Disturbs(e, k)
    ensures Synced(Next(s, e), k)
  {
    if IsApply(e) {
      ApplyKeepsSynced(s, e, k);
    } else {
      OtherKeepsSynced(s, e, k);
    }
  }

  /** A resource with such a run is in sync, whatever else was interleaved: its account, role, binding
      and Job are in the cluster just as assembled from its current spec. */
  lemma {:induction false} DeliveredIsSynced(es: seq<Event>, k: NamespacedName)
    requires IsTrace(es) && Delivered(es, k)
    ensures Synced(After(es), k)
  {
    var front, last := es[..|es| - 1], es[|es| - 1];
    TraceInv(front);
    if last == Publish(k) {
      TraceInPlace(front);
      PublishFinds(After(front), k);
      PublishedSyncs(After(front), k);
    } else {
      var i :| 0 <= i < |es| && es[i] == Publish(k) && forall j :: i < j < |es| ==> !Disturbs(es[j], k);
      assert front[i] == Publish(k);
      DeliveredIsSynced(front, k);
      StepKeepsSynced(After(front), last, k);
    }
  }

  /** Then its Job runs the image it names now, with the pull secret it names now or with none. */
  lemma DeliveredJobFits(es: seq<Event>, k: NamespacedName)
    requires IsTrace(es) && Delivered(es, k)
    ensures var s := After(es);
            && k in s.entries && s.entries[k].history != [] && JobKey(k) in s.objects
            && JobFits(s.objects[JobKey(k)], Current(s.entries[k]))
  {
    DeliveredIsSynced(es, k);
    TraceInv(es);
    assert EntryInv(After(es), k, After(es).entries[k]);
    var ca := Current(After(es).entries[k]);
    assert Places(k)[3] == JobKey(k) && Generated(ca)[3] == AssembleJobSpec(ca);
    AssembledJobFits(ca);
  }

  // ---------- where objects come from ----------

  /** The object is the `j`-th one assembled from version `v` of resource `k`, and lies at its place. */
  predicate From(s: Cluster, key: Key, o: Object, k: NamespacedName, v: nat, j: nat) {
    && k in s.entries && v < |s.entries[k].history| && CAKeyOf(s.entries[k].history[v]) == k
    && j < 4 && Places(k)[j] == key && Generated(s.entries[k].history[v])[j] == o
  }

  ghost predicate Derived(s: Cluster, key: Key, o: Object) {
    exists k: NamespacedName, v: nat, j: nat :: From(s, key, o, k, v, j)
  }

  ghost predicate AllDerived(s: Cluster) {
    forall key :: key in s.objects ==> Derived(s, key, s.objects[key])
  }

  predicate HistoriesGrow(s: Cluster, t: Cluster) {
    forall k :: k in s.entries ==> k in t.entries && s.entries[k].history <= t.entries[k].history
  }

  lemma DerivedKept(s: Cluster, t: Cluster, key: Key, o: Object)
    requires Derived(s, key, o) && HistoriesGrow(s, t)
    ensures Derived(t, key, o)
  {
    var k: NamespacedName, v: nat, j: nat :| From(s, key, o, k, v, j);
    assert t.entries[k].history[v] == s.entries[k].history[v];
    assert From(t, key, o, k, v, j);
  }

  lemma StepGrowsHistories(s: Cluster, e: Event)
    requires Enabled(s, e)
    ensures HistoriesGrow(s, Next(s, e))
    ensures !IsApply(e) ==> Next(s, e).objects == s.objects
  {
  }

  lemma WrittenIsDerived(s: Cluster, e: Event)
    requires Inv(s) && Enabled(s, e) && IsApply(e)
    ensures var i, o := AppliedBy(s.entries[e.k].proc), Generated(CAProtocol.Subject(s, e.k));
            && i < 4 && Derived(Next(s, e), Places(e.k)[i], o[i])
            && Next(s, e).objects == s.objects[Places(e.k)[i] := o[i]]
  {
    ApplyWrites(s, e);
    var i, v := AppliedBy(s.entries[e.k].proc), s.entries[e.k].proc.version;
    assert From(Next(s, e), Places(e.k)[i], Generated(CAProtocol.Subject(s, e.k))[i], e.k, v, i);
  }

  lemma ApplyKeepsDerived(s: Cluster, e: Event, key: Key)
    requires Inv(s) && Enabled(s, e) && IsApply(e) && key in Next(s, e).objects
    requires key in s.objects ==> Derived(s, key, s.objects[key])
    ensures Derived(Next(s, e), key, Next(s, e).objects[key])
  {
    WrittenIsDerived(s, e);
    if key != Places(e.k)[AppliedBy(s.entries[e.k].proc)] {
      StepGrowsHistories(s, e);
      DerivedKept(s, Next(s, e), key, s.objects[key]);
    }
  }

  lemma OtherKeepsDerived(s: Cluster, e: Event, key: Key)
    requires Enabled(s, e) && !IsApply(e) && key in s.objects && Derived(s, key, s.objects[key])
    ensures key in Next(s, e).objects && Derived(Next(s, e), key, Next(s, e).objects[key])
  {
    StepGrowsHistories(s, e);
    DerivedKept(s, Next(s, e), key, s.objects[key]);
  }

  lemma StepKeepsDerived(s: Cluster, e: Event)
    requires Inv(s) && Enabled(s, e) && AllDerived(s)
    ensures AllDerived(Next(s, e))
  {
    StepGrowsHistories(s, e);
    forall key | key in Next(s, e).objects ensures Derived(Next(s, e), key, Next(s, e).objects[key]) {
      if IsApply(e) {
        ApplyKeepsDerived(s, e, key);
      } else {
        OtherKeepsDerived(s, e, key);
      }
    }
  }

  lemma {:induction false} TraceDerived(es: seq<Event>)
    requires IsTrace(es)
    ensures AllDerived(After(es))
  {
    if es != [] {
      TraceDerived(es[..|es| - 1]);
      TraceInv(es[..|es| - 1]);
      StepKeepsDerived(After(es[..|es| - 1]), es[|es| - 1]);
    }
  }

  predicate Live(s: Cluster, k: NamespacedName) {
    k in s.entries && s.entries[k].live && s.entries[k].history != []
  }

  /** An existing resource asks, in its current spec, for this object at this place. */
  predicate AsksFor(s: Cluster, key: Key, o: Object, k: NamespacedName, j: nat) {
    Live(s, k) && j < 4 && Places(k)[j] == key && Generated(Current(s.entries[k]))[j] == o
  }

  predicate LiesAt(s: Cluster, key: Key, k: NamespacedName, j: nat) {
    k in s.entries && j < 4 && Places(k)[j] == key
  }

  /** A delivered resource asks for this object at this place. */
  ghost predicate DeliveredAsks(es: seq<Event>, key: Key, o: Object)
    requires IsTrace(es)
  {
    exists k: NamespacedName, j: nat :: AsksFor(After(es), key, o, k, j) && Delivered(es, k)
  }

  /** The place belongs to a resource that is not delivered. */
  ghost predicate Pending(es: seq<Event>, key: Key)
    requires IsTrace(es)
  {
    exists k: NamespacedName, j: nat :: LiesAt(After(es), key, k, j) && !Delivered(es, k)
  }

  /** In every history: the four objects of each delivered resource are in the cluster as its current
      spec asks, and every object is one of those or lies at a place of a resource that is not delivered. */
  lemma DeliveredPart(es: seq<Event>)
    requires IsTrace(es)
    ensures var s := After(es);
            && (forall k :: Delivered(es, k) ==> Live(s, k) && InPlace(s.objects, Current(s.entries[k]), 4))
            && (forall key :: key in s.objects ==> DeliveredAsks(es, key, s.objects[key]) || Pending(es, key))
  {
    var s := After(es);
    TraceInv(es);
    TraceDerived(es);
    forall k | Delivered(es, k) ensures Live(s, k) && InPlace(s.objects, Current(s.entries[k]), 4) {
      DeliveredIsSynced(es, k);
    }
    forall key | key in s.objects ensures DeliveredAsks(es, key, s.objects[key]) || Pending(es, key) {
      var k: NamespacedName, v: nat, j: nat :| From(s, key, s.objects[key], k, v, j);
      if Delivered(es, k) {
        assert EntryInv(s, k, s.entries[k]);
        assert AsksFor(s, key, s.objects[key], k, j);
      } else {
        assert LiesAt(s, key, k, j);
      }
    }
  }

  /** Every resource that exists is delivered. */
  ghost predicate AllDelivered(es: seq<Event>)
    requires IsTrace(es)
  {
    forall k :: k in After(es).entries && After(es).entries[k].live ==> Delivered(es, k)
  }

  ghost predicate Desired(s: Cluster, key: Key, o: Object) {
    exists k: NamespacedName, j: nat :: AsksFor(s, key, o, k, j)
  }

  predicate LiesAtDead(s: Cluster, key: Key, k: NamespacedName, j: nat) {
    LiesAt(s, key, k, j) && !s.entries[k].live
  }

  /** The place belongs to a resource that was deleted. */
  ghost predicate LeftBehind(s: Cluster, key: Key) {
    exists k: NamespacedName, j: nat :: LiesAtDead(s, key, k, j)
  }

  /** The cluster holds all that the existing resources ask for, and beyond that only what deleted
      ones have left behind. */
  ghost predicate IsUnionOfDesired(s: Cluster) {
    && (forall k :: k in s.entries && s.entries[k].live ==>
          s.entries[k].history != [] && InPlace(s.objects, Current(s.entries[k]), 4))
    && (forall key :: key in s.objects ==> Desired(s, key, s.objects[key]) || LeftBehind(s, key))
  }

  /** Whatever the interleaving, once every resource that exists is delivered the accounts, roles, bindings
      and Jobs in the cluster are exactly the union of what they ask for, but for what deleted resources
      have left behind. */
  lemma Convergence(es: seq<Event>)
    requires IsTrace(es) && AllDelivered(es)
    ensures IsUnionOfDesired(After(es))
  {
    var s := After(es);
    DeliveredPart(es);
    forall key | key in s.objects ensures Desired(s, key, s.objects[key]) || LeftBehind(s, key) {
      if DeliveredAsks(es, key, s.objects[key]) {
        var k: NamespacedName, j: nat :| AsksFor(s, key, s.objects[key], k, j) && Delivered(es, k);
      } else {
        var k: NamespacedName, j: nat :| LiesAt(s, key, k, j) && !Delivered(es, k);
        assert LiesAtDead(s, key, k, j);
      }
    }
  }
}
