/** All five controllers in one process over one cluster. Every step reads and writes the one shared set
    of objects, and a crash stops the runs of all. The machine is shown to be nothing more than the two
    protocols side by side: whatever is proved of either holds of it. */
module Joint {
  import opened Kubernetes
  import opened CustomResources
  import P = Protocol
  import A = CAProtocol
  import G = GeneratorObjects
  import T = CATheorems
  import S = CASync
  import Manifests

  datatype Cluster = Cluster(components: map<CRKey, P.Entry>, cas: map<NamespacedName, A.Entry>,
                             objects: map<Key, Object>, secrets: map<NamespacedName, string>,
                             ever: set<NamespacedName>, pods: set<G.Pod>)

  datatype Event =
    | Component(p: P.Event)
    | Authority(a: A.Event)
    | Restart(components: set<CRKey>, cas: set<NamespacedName>)

  function Init(): Cluster {
    Cluster(map[], map[], map[], map[], {}, {})
  }

  /** What a component controller sees: its resources, and all objects. */
  function SeenByComponents(s: Cluster): P.Cluster {
    P.Cluster(s.components, s.objects)
  }

  function SeenByAuthority(s: Cluster): A.Cluster {
    A.Cluster(s.cas, s.objects, s.secrets, s.ever, s.pods)
  }

  predicate Enabled(c: P.Compiler, s: Cluster, e: Event) {
    match e
    case Component(p) => !p.Restart? && P.Enabled(c, SeenByComponents(s), p)
    case Authority(a) => !a.Restart? && A.Enabled(SeenByAuthority(s), a)
    case Restart(_, _) => true
  }

  function WithComponents(s: Cluster, t: P.Cluster): Cluster {
    s.(components := t.entries, objects := t.objects)
  }

  function WithAuthority(s: Cluster, t: A.Cluster): Cluster {
    s.(cas := t.entries, objects := t.objects, secrets := t.secrets, ever := t.ever, pods := t.pods)
  }

  /** A panic in a component's run takes the process with it, and so the ChiaCA runs too. */
  function Next(c: P.Compiler, s: Cluster, e: Event): Cluster
    requires Enabled(c, s, e)
  {
    match e
    case Component(p) =>
      var t := WithComponents(s, P.Next(c, SeenByComponents(s), p));
      if p.Panic? then t.(cas := A.Next(SeenByAuthority(s), A.Event.Restart({})).entries) else t
    case Authority(a) => WithAuthority(s, A.Next(SeenByAuthority(s), a))
    case Restart(f, g) =>
      s.(components := P.Next(c, SeenByComponents(s), P.Event.Restart(f)).entries,
         cas := A.Next(SeenByAuthority(s), A.Event.Restart(g)).entries)
  }

  predicate IsTrace(c: P.Compiler, es: seq<Event>)
    decreases |es|, 0
  {
    es == [] || (IsTrace(c, es[..|es| - 1]) && Enabled(c, After(c, es[..|es| - 1]), es[|es| - 1]))
  }

  function After(c: P.Compiler, es: seq<Event>): Cluster
    requires IsTrace(c, es)
    decreases |es|, 1
  {
    if es == [] then Init() else Next(c, After(c, es[..|es| - 1]), es[|es| - 1])
  }

  // ---------- the two sides ----------

  /** The kinds of object that the component controllers make; the ChiaCA controller makes the others. */
  predicate OfComponents(kind: ObjectKind) {
    kind == ServiceKind || kind == DeploymentKind || kind == StatefulSetKind
  }

  function ComponentObjects(objects: map<Key, Object>): map<Key, Object> {
    map key | key in objects && OfComponents(key.kind) :: objects[key]
  }

  function AuthorityObjects(objects: map<Key, Object>): map<Key, Object> {
    map key | key in objects && !OfComponents(key.kind) :: objects[key]
  }

  function ComponentSide(s: Cluster): P.Cluster {
    P.Cluster(s.components, ComponentObjects(s.objects))
  }

  function AuthoritySide(s: Cluster): A.Cluster {
    A.Cluster(s.cas, AuthorityObjects(s.objects), s.secrets, s.ever, s.pods)
  }

  /** What the component controllers notice of a step. */
  function ComponentPart(e: Event): seq<P.Event> {
    match e
    case Component(p) => [p]
    case Authority(_) => []
    case Restart(f, _) => [P.Event.Restart(f)]
  }

  function AuthorityPart(e: Event): seq<A.Event> {
    match e
    case Component(p) => if p.Panic? then [A.Event.Restart({})] else []
    case Authority(a) => [a]
    case Restart(_, g) => [A.Event.Restart(g)]
  }

  function ComponentHistory(es: seq<Event>): seq<P.Event> {
    if es == [] then [] else ComponentHistory(es[..|es| - 1]) + ComponentPart(es[|es| - 1])
  }

  function AuthorityHistory(es: seq<Event>): seq<A.Event> {
    if es == [] then [] else AuthorityHistory(es[..|es| - 1]) + AuthorityPart(es[|es| - 1])
  }

  /** The compiler makes nothing but Services, Deployments and StatefulSets. */
  ghost predicate MakesComponents(c: P.Compiler) {
    forall cr: CR, j :: 0 <= j < |c.plan(cr)| && c.plan(cr)[j].Some? ==> OfComponents(KindOf(c.plan(cr)[j].value))
  }

  lemma OperatorMakesComponents()
    ensures MakesComponents(P.OPERATOR)
  {
    forall cr: CR, j | 0 <= j < |P.OPERATOR.plan(cr)| && P.OPERATOR.plan(cr)[j].Some?
      ensures OfComponents(KindOf(P.OPERATOR.plan(cr)[j].value))
    {
      Manifests.AssembledAtDerivedKeys(cr, j);
      assert OfComponents(Manifests.DerivedKeys(CRKeyOf(cr))[j].kind);
    }
  }

  /** Every object lies at its own key. */
  predicate Shaped(objects: map<Key, Object>) {
    forall key :: key in objects ==> KeyOf(objects[key]) == key
  }

  // ---------- steps of the components ----------

  lemma ComponentWrite(objects: map<Key, Object>, o: Object)
    requires OfComponents(KindOf(o)) && Shaped(objects)
    ensures ComponentObjects(objects[KeyOf(o) := o]) == ComponentObjects(objects)[KeyOf(o) := o]
    ensures AuthorityObjects(objects[KeyOf(o) := o]) == AuthorityObjects(objects)
    ensures Shaped(objects[KeyOf(o) := o])
  {
  }

  lemma AuthorityWrite(objects: map<Key, Object>, o: Object)
    requires !OfComponents(KindOf(o)) && Shaped(objects)
    ensures AuthorityObjects(objects[KeyOf(o) := o]) == AuthorityObjects(objects)[KeyOf(o) := o]
    ensures ComponentObjects(objects[KeyOf(o) := o]) == ComponentObjects(objects)
    ensures Shaped(objects[KeyOf(o) := o])
  {
  }

  lemma ComponentStep(c: P.Compiler, s: Cluster, p: P.Event)
    requires MakesComponents(c) && Shaped(s.objects) && P.Enabled(c, SeenByComponents(s), p)
    ensures P.Enabled(c, ComponentSide(s), p)
    ensures var t := P.Next(c, SeenByComponents(s), p);
            && P.Next(c, ComponentSide(s), p) == P.Cluster(t.entries, ComponentObjects(t.objects))
            && AuthorityObjects(t.objects) == AuthorityObjects(s.objects) && Shaped(t.objects)
  {
    if p.Apply? {
      var o := P.Plan(c, SeenByComponents(s), p.k)[s.components[p.k].proc.applied].value;
      ComponentWrite(s.objects, o);
    }
  }

  // ---------- steps of the ChiaCA controller and its pods ----------

  lemma GrantsOnSide(objects: map<Key, Object>, key: Key, pod: G.Pod, verb: string, target: NamespacedName)
    requires Shaped(objects)
    ensures G.Grants(objects, key, pod, verb, target) <==> G.Grants(AuthorityObjects(objects), key, pod, verb, target)
  {
  }

  /** What pods are allowed depends on nothing that component controllers write. */
  lemma AllowedOnSide(objects: map<Key, Object>, pod: G.Pod, verb: string, target: NamespacedName)
    requires Shaped(objects)
    ensures G.Allowed(objects, pod, verb, target) <==> G.Allowed(AuthorityObjects(objects), pod, verb, target)
  {
    var side := AuthorityObjects(objects);
    if G.Allowed(objects, pod, verb, target) {
      var key :| key in objects && G.Grants(objects, key, pod, verb, target);
      GrantsOnSide(objects, key, pod, verb, target);
      assert key in side && G.Grants(side, key, pod, verb, target);
    }
    if G.Allowed(side, pod, verb, target) {
      var key :| key in side && G.Grants(side, key, pod, verb, target);
      GrantsOnSide(objects, key, pod, verb, target);
      assert key in objects && G.Grants(objects, key, pod, verb, target);
    }
  }

  /** The objects of one side's cluster in place of all. */
  function OnSide(t: A.Cluster): A.Cluster {
    t.(objects := AuthorityObjects(t.objects))
  }

  lemma ApplyOnSide(t: A.Cluster, a: A.Event)
    requires Shaped(t.objects) && A.Enabled(t, a) && (a.ApplySetup? || a.ApplyJob?)
    ensures A.Enabled(OnSide(t), a) && A.Next(OnSide(t), a) == OnSide(A.Next(t, a))
    ensures ComponentObjects(A.Next(t, a).objects) == ComponentObjects(t.objects) && Shaped(A.Next(t, a).objects)
  {
    var o := if a.ApplySetup? then G.SetupObjects(A.Subject(t, a.k))[t.entries[a.k].proc.applied]
             else G.AssembleJobSpec(A.Subject(t, a.k));
    assert A.Next(t, a).objects == t.objects[KeyOf(o) := o];
    AuthorityWrite(t.objects, o);
  }

  lemma SpawnOnSide(t: A.Cluster, a: A.Event)
    requires Shaped(t.objects) && A.Enabled(t, a) && a.SpawnPod?
    ensures A.Enabled(OnSide(t), a) && A.Next(OnSide(t), a) == OnSide(A.Next(t, a))
    ensures A.Next(t, a).objects == t.objects
  {
    assert AuthorityObjects(t.objects)[a.job] == t.objects[a.job];
  }

  lemma ServeOnSide(t: A.Cluster, verb: string, secret: NamespacedName, material: string)
    ensures A.Serve(OnSide(t), verb, secret, material) == OnSide(A.Serve(t, verb, secret, material))
    ensures A.Serve(t, verb, secret, material).objects == t.objects
  {
  }

  lemma CallOnSide(t: A.Cluster, a: A.Event)
    requires Shaped(t.objects) && A.Enabled(t, a) && a.PodCall?
    ensures A.Enabled(OnSide(t), a) && A.Next(OnSide(t), a) == OnSide(A.Next(t, a))
    ensures A.Next(t, a).objects == t.objects
  {
    AllowedOnSide(t.objects, a.pod, a.verb, a.secret);
    ServeOnSide(t, a.verb, a.secret, a.material);
  }

  lemma OtherOnSide(t: A.Cluster, a: A.Event)
    requires A.Enabled(t, a) && !a.ApplySetup? && !a.ApplyJob? && !a.SpawnPod? && !a.PodCall?
    ensures A.Enabled(OnSide(t), a) && A.Next(OnSide(t), a) == OnSide(A.Next(t, a))
    ensures A.Next(t, a).objects == t.objects
  {
  }

  lemma AuthorityStep(t: A.Cluster, a: A.Event)
    requires Shaped(t.objects) && A.Enabled(t, a)
    ensures A.Enabled(OnSide(t), a) && A.Next(OnSide(t), a) == OnSide(A.Next(t, a))
    ensures ComponentObjects(A.Next(t, a).objects) == ComponentObjects(t.objects) && Shaped(A.Next(t, a).objects)
  {
    if a.ApplySetup? || a.ApplyJob? {
      ApplyOnSide(t, a);
    } else if a.SpawnPod? {
      SpawnOnSide(t, a);
    } else if a.PodCall? {
      CallOnSide(t, a);
    } else {
      OtherOnSide(t, a);
    }
  }

  // ---------- the machine is the two protocols ----------

  /** A history of one side, and where it leads. */
  ghost predicate ComponentsAt(c: P.Compiler, es: seq<P.Event>, s: P.Cluster) {
    P.IsTrace(c, es) && P.After(c, es) == s
  }

  ghost predicate AuthorityAt(es: seq<A.Event>, s: A.Cluster) {
    A.IsTrace(es) && A.After(es) == s
  }

  lemma ComponentsExtend(c: P.Compiler, es: seq<P.Event>, s: P.Cluster, e: P.Event)
    requires ComponentsAt(c, es, s) && P.Enabled(c, s, e)
    ensures ComponentsAt(c, es + [e], P.Next(c, s, e))
  {
    assert (es + [e])[..|es|] == es;
  }

  lemma AuthorityExtends(es: seq<A.Event>, s: A.Cluster, e: A.Event)
    requires AuthorityAt(es, s) && A.Enabled(s, e)
    ensures AuthorityAt(es + [e], A.Next(s, e))
  {
    assert (es + [e])[..|es|] == es;
  }

  /** A step of the machine is a step, or none, of either side. */
  lemma StepOfComponents(c: P.Compiler, s: Cluster, e: Event, es: seq<P.Event>)
    requires MakesComponents(c) && Shaped(s.objects) && Enabled(c, s, e) && ComponentsAt(c, es, ComponentSide(s))
    ensures ComponentsAt(c, es + ComponentPart(e), ComponentSide(Next(c, s, e)))
  {
    match e
    case Component(p) =>
      ComponentStep(c, s, p);
      ComponentsExtend(c, es, ComponentSide(s), p);
    case Authority(a) =>
      AuthorityStep(SeenByAuthority(s), a);
      assert es + [] == es;
    case Restart(f, _) =>
      ComponentStep(c, s, P.Event.Restart(f));
      ComponentsExtend(c, es, ComponentSide(s), P.Event.Restart(f));
  }

  lemma StepOfAuthority(c: P.Compiler, s: Cluster, e: Event, es: seq<A.Event>)
    requires MakesComponents(c) && Shaped(s.objects) && Enabled(c, s, e) && AuthorityAt(es, AuthoritySide(s))
    ensures AuthorityAt(es + AuthorityPart(e), AuthoritySide(Next(c, s, e)))
    ensures Shaped(Next(c, s, e).objects)
  {
    var seen := SeenByAuthority(s);
    assert OnSide(seen) == AuthoritySide(s);
    match e
    case Component(p) =>
      ComponentStep(c, s, p);
      if p.Panic? {
        AuthorityStep(seen, A.Event.Restart({}));
        AuthorityExtends(es, AuthoritySide(s), A.Event.Restart({}));
      } else {
        assert es + [] == es;
      }
    case Authority(a) =>
      AuthorityStep(seen, a);
      AuthorityExtends(es, AuthoritySide(s), a);
    case Restart(_, g) =>
      AuthorityStep(seen, A.Event.Restart(g));
      AuthorityExtends(es, AuthoritySide(s), A.Event.Restart(g));
  }

  ghost predicate Splits(c: P.Compiler, es: seq<Event>, s: Cluster) {
    && Shaped(s.objects)
    && ComponentsAt(c, ComponentHistory(es), ComponentSide(s)) && AuthorityAt(AuthorityHistory(es), AuthoritySide(s))
  }

  lemma LastSplits(c: P.Compiler, es: seq<Event>)
    requires MakesComponents(c) && IsTrace(c, es) && es != []
    requires Splits(c, es[..|es| - 1], After(c, es[..|es| - 1]))
    ensures Splits(c, es, After(c, es))
  {
    var front, e := es[..|es| - 1], es[|es| - 1];
    StepOfComponents(c, After(c, front), e, ComponentHistory(front));
    StepOfAuthority(c, After(c, front), e, AuthorityHistory(front));
  }

  lemma StartSplits(c: P.Compiler)
    ensures Splits(c, [], Init())
  {
    assert ComponentObjects(map[]) == map[] && AuthorityObjects(map[]) == map[];
  }

  /** Every history of the machine is a history of each protocol, and leads both where it leads the machine. */
  lemma {:induction false} SideBySide(c: P.Compiler, es: seq<Event>)
    requires MakesComponents(c) && IsTrace(c, es)
    ensures Splits(c, es, After(c, es))
    decreases |es|
  {
    if es == [] {
      StartSplits(c);
    } else {
      SideBySide(c, es[..|es| - 1]);
      LastSplits(c, es);
    }
  }

  /** The two sides hold all objects between them, and share none. */
  lemma SidesCover(objects: map<Key, Object>)
    ensures objects == ComponentObjects(objects) + AuthorityObjects(objects)
    ensures ComponentObjects(objects).Keys !! AuthorityObjects(objects).Keys
  {
  }

  // ---------- what follows for the machine ----------

  /** A settled component's, or a delivered ChiaCA resource's, object at this key, or a place of one that
      is neither. */
  ghost predicate Accounted(c: P.Compiler, es: seq<P.Event>, fs: seq<A.Event>, key: Key, o: Object)
    requires P.IsTrace(c, es) && A.IsTrace(fs)
  {
    P.SettledAsks(c, es, key, o) || P.Pending(c, es, key) || S.DeliveredAsks(fs, key, o) || S.Pending(fs, key)
  }

  lemma AppliedInAll(c: P.Compiler, objects: map<Key, Object>, cr: CR)
    requires P.AllApplied(c, ComponentObjects(objects), cr)
    ensures P.AllApplied(c, objects, cr)
  {
  }

  lemma InPlaceInAll(objects: map<Key, Object>, ca: ChiaCA)
    requires S.InPlace(AuthorityObjects(objects), ca, 4)
    ensures S.InPlace(objects, ca, 4)
  {
  }

  /** In every history of all five controllers, with their crashes: the objects of each settled component
      and of each delivered ChiaCA resource are in the cluster as its current spec asks, and every object
      in the cluster is one of those or lies at a place of a resource that is neither. */
  lemma AllAccounted(c: P.Compiler, es: seq<Event>)
    requires P.Lawful(c) && MakesComponents(c) && IsTrace(c, es)
    ensures P.IsTrace(c, ComponentHistory(es)) && A.IsTrace(AuthorityHistory(es))
    ensures forall k :: P.Settled(ComponentHistory(es), k) ==>
              && P.Live(ComponentSide(After(c, es)), k)
              && P.AllApplied(c, After(c, es).objects, P.Current(After(c, es).components[k]))
    ensures forall k :: S.Delivered(AuthorityHistory(es), k) ==>
              && S.Live(AuthoritySide(After(c, es)), k)
              && S.InPlace(After(c, es).objects, A.Current(After(c, es).cas[k]), 4)
    ensures forall key :: key in After(c, es).objects ==>
              Accounted(c, ComponentHistory(es), AuthorityHistory(es), key, After(c, es).objects[key])
  {
    var s := After(c, es);
    SideBySide(c, es);
    P.SettledPart(c, ComponentHistory(es));
    S.DeliveredPart(AuthorityHistory(es));
    forall k | P.Settled(ComponentHistory(es), k)
      ensures P.Live(ComponentSide(s), k) && P.AllApplied(c, s.objects, P.Current(s.components[k]))
    {
      AppliedInAll(c, s.objects, P.Current(s.components[k]));
    }
    forall k | S.Delivered(AuthorityHistory(es), k)
      ensures S.Live(AuthoritySide(s), k) && S.InPlace(s.objects, A.Current(s.cas[k]), 4)
    {
      InPlaceInAll(s.objects, A.Current(s.cas[k]));
    }
    SidesCover(s.objects);
  }

  /** What all existing resources ask for, and what deleted ones have left behind. */
  ghost predicate IsUnionOfDesired(c: P.Compiler, s: Cluster) {
    && (forall k :: k in s.components && s.components[k].live ==>
          s.components[k].history != [] && P.AllApplied(c, s.objects, P.Current(s.components[k])))
    && (forall k :: k in s.cas && s.cas[k].live ==>
          s.cas[k].history != [] && S.InPlace(s.objects, A.Current(s.cas[k]), 4))
    && (forall key :: key in s.objects ==>
          || P.Desired(c, ComponentSide(s), key, s.objects[key]) || S.Desired(AuthoritySide(s), key, s.objects[key])
          || P.LeftBehind(c, ComponentSide(s), key) || S.LeftBehind(AuthoritySide(s), key))
  }

  /** Every resource that exists, of all five kinds, is settled or delivered. */
  ghost predicate AllSettled(c: P.Compiler, es: seq<Event>)
    requires IsTrace(c, es)
  {
    && (forall k :: k in After(c, es).components && After(c, es).components[k].live ==>
          P.Settled(ComponentHistory(es), k))
    && (forall k :: k in After(c, es).cas && After(c, es).cas[k].live ==> S.Delivered(AuthorityHistory(es), k))
  }

  lemma UnionOfSides(c: P.Compiler, s: Cluster)
    requires P.IsUnionOfDesired(c, ComponentSide(s)) && S.IsUnionOfDesired(AuthoritySide(s))
    ensures IsUnionOfDesired(c, s)
  {
    SidesCover(s.objects);
    forall k | k in s.components && s.components[k].live
      ensures s.components[k].history != [] && P.AllApplied(c, s.objects, P.Current(s.components[k]))
    {
      AppliedInAll(c, s.objects, P.Current(s.components[k]));
    }
    forall k | k in s.cas && s.cas[k].live
      ensures s.cas[k].history != [] && S.InPlace(s.objects, A.Current(s.cas[k]), 4)
    {
      InPlaceInAll(s.objects, A.Current(s.cas[k]));
    }
  }

  /** Convergence with all five controllers and their crashes interleaved: once every resource that exists
      is settled, all objects in the cluster are the union of what they ask for, but for what deleted
      resources have left behind. */
  lemma Convergence(c: P.Compiler, es: seq<Event>)
    requires P.Lawful(c) && MakesComponents(c) && IsTrace(c, es) && AllSettled(c, es)
    ensures IsUnionOfDesired(c, After(c, es))
  {
    SideBySide(c, es);
    P.Convergence(c, ComponentHistory(es));
    S.Convergence(AuthorityHistory(es));
    UnionOfSides(c, After(c, es));
  }

  /** All this is so for the operator's own manifest compiler. */
  lemma OperatorConverges(es: seq<Event>)
    requires IsTrace(P.OPERATOR, es)
    ensures AllSettled(P.OPERATOR, es) ==> IsUnionOfDesired(P.OPERATOR, After(P.OPERATOR, es))
    ensures forall pod, verb, target :: pod in After(P.OPERATOR, es).pods ==>
              (G.Allowed(After(P.OPERATOR, es).objects, pod, verb, target) <==> verb == "create" && target.ns == pod.ns)
  {
    P.OperatorIsLawful();
    OperatorMakesComponents();
    if AllSettled(P.OPERATOR, es) {
      Convergence(P.OPERATOR, es);
    }
    forall pod, verb, target | pod in After(P.OPERATOR, es).pods
      ensures G.Allowed(After(P.OPERATOR, es).objects, pod, verb, target) <==> verb == "create" && target.ns == pod.ns
    {
      PodsMayOnlyCreate(P.OPERATOR, es, pod, verb, target);
    }
  }

  /** No component's step, nor its crash, ever lets a pod change CA material. */
  lemma PodsMayOnlyCreate(c: P.Compiler, es: seq<Event>, pod: G.Pod, verb: string, target: NamespacedName)
    requires MakesComponents(c) && IsTrace(c, es) && pod in After(c, es).pods
    ensures G.Allowed(After(c, es).objects, pod, verb, target) <==> verb == "create" && target.ns == pod.ns
  {
    SideBySide(c, es);
    AllowedOnSide(After(c, es).objects, pod, verb, target);
    T.PodsMayOnlyCreate(AuthorityHistory(es), pod, verb, target);
  }

  /** Shared objects that one side sees alike are told apart by the other side alone. */
  lemma SameOnBothSides(a: map<Key, Object>, b: map<Key, Object>)
    requires ComponentObjects(a) == ComponentObjects(b) && AuthorityObjects(a) == AuthorityObjects(b)
    ensures a == b
  {
    SidesCover(a);
    SidesCover(b);
  }

  /** The components' objects make no difference to the other side, nor the other way round. */
  lemma AuthorityBlind(t: A.Cluster, t': A.Cluster, a: A.Event)
    requires Shaped(t.objects) && Shaped(t'.objects) && OnSide(t) == OnSide(t') && A.Enabled(t, a)
    ensures A.Enabled(t', a) && OnSide(A.Next(t, a)) == OnSide(A.Next(t', a))
  {
    EnabledFromSide(t', a);
    AuthorityStep(t, a);
    AuthorityStep(t', a);
  }

  lemma EnabledFromSide(t: A.Cluster, a: A.Event)
    requires A.Enabled(OnSide(t), a)
    ensures A.Enabled(t, a)
  {
  }

  lemma StepsCommute(c: P.Compiler, s: Cluster, p: P.Event, a: A.Event)
    requires MakesComponents(c) && Shaped(s.objects) && !p.Panic?
    requires Enabled(c, s, Component(p)) && Enabled(c, s, Authority(a))
    ensures Enabled(c, Next(c, s, Component(p)), Authority(a)) && Enabled(c, Next(c, s, Authority(a)), Component(p))
    ensures Next(c, Next(c, s, Component(p)), Authority(a)) == Next(c, Next(c, s, Authority(a)), Component(p))
  {
    var s1, s2 := Next(c, s, Component(p)), Next(c, s, Authority(a));
    ComponentStep(c, s, p);
    AuthorityStep(SeenByAuthority(s), a);
    AuthorityBlind(SeenByAuthority(s), SeenByAuthority(s1), a);
    AuthorityStep(SeenByAuthority(s1), a);
    ComponentStep(c, s2, p);
    SameOnBothSides(Next(c, s1, Authority(a)).objects, Next(c, s2, Component(p)).objects);
  }

  /** A step of a component and a step of the ChiaCA controller, its pods or its users commute, unless
      the component panics; neither enables nor disables the other. */
  lemma AcrossCommute(c: P.Compiler, es: seq<Event>, p: P.Event, a: A.Event)
    requires MakesComponents(c) && IsTrace(c, es) && !p.Panic?
    requires Enabled(c, After(c, es), Component(p)) && Enabled(c, After(c, es), Authority(a))
    ensures var s := After(c, es);
            && Enabled(c, Next(c, s, Component(p)), Authority(a))
            && Enabled(c, Next(c, s, Authority(a)), Component(p))
            && Next(c, Next(c, s, Component(p)), Authority(a)) == Next(c, Next(c, s, Authority(a)), Component(p))
  {
    SideBySide(c, es);
    StepsCommute(c, After(c, es), p, a);
  }
}
