/** Steps about different ChiaCA resources commute. */
module CACommute {
  import opened Wrappers
  import opened Kubernetes
  import opened CustomResources
  import opened GeneratorObjects
  import opened CAProtocol
  import opened CASync

  /** What an event writes to the cluster's objects. */
  function Writes(s: Cluster, e: Event): map<Key, Object>
    requires Enabled(s, e)
  {
    match e
    case ApplySetup(k) =>
      var o := SetupObjects(CAProtocol.Subject(s, k))[s.entries[k].proc.applied];
      map[KeyOf(o) := o]
    case ApplyJob(k) =>
      var o := AssembleJobSpec(CAProtocol.Subject(s, k));
      map[KeyOf(o) := o]
    case _ => map[]
  }

  ghost predicate SameEntry(s: Cluster, t: Cluster, k: NamespacedName) {
    (k in s.entries <==> k in t.entries) && (k in s.entries ==> s.entries[k] == t.entries[k])
  }

  lemma ApplyIsLocal(s: Cluster, t: Cluster, e: Event)
    requires IsApply(e) && SameEntry(s, t, e.k) && Enabled(s, e)
    ensures Enabled(t, e) && Writes(t, e) == Writes(s, e)
    ensures Next(t, e) == t.(entries := t.entries[e.k := Next(s, e).entries[e.k]], objects := t.objects + Writes(s, e))
  {
    assert Next(t, e).objects == t.objects + Writes(s, e);
  }

  lemma OtherIsLocal(s: Cluster, t: Cluster, e: Event, k: NamespacedName)
    requires Touched(e) == Some(k) && !IsApply(e) && SameEntry(s, t, k) && s.ever == t.ever && Enabled(s, e)
    ensures Enabled(t, e) && k in Next(s, e).entries
    ensures Next(t, e) == t.(entries := t.entries[k := Next(s, e).entries[k]])
  {
  }

  /** A step about a resource looks only at that and at which Secrets have existed, and changes only
      that and the objects it writes. */
  lemma StepIsLocal(s: Cluster, t: Cluster, e: Event, k: NamespacedName)
    requires Touched(e) == Some(k) && SameEntry(s, t, k) && s.ever == t.ever && Enabled(s, e)
    ensures Enabled(t, e) && Writes(t, e) == Writes(s, e) && k in Next(s, e).entries
    ensures Next(t, e) == t.(entries := t.entries[k := Next(s, e).entries[k]], objects := t.objects + Writes(s, e))
  {
    if IsApply(e) {
      ApplyIsLocal(s, t, e);
    } else {
      OtherIsLocal(s, t, e, k);
      assert t.objects + map[] == t.objects;
    }
  }

  lemma WritesAtPlace(s: Cluster, e: Event)
    requires Inv(s) && Enabled(s, e) && IsApply(e)
    ensures AppliedBy(s.entries[e.k].proc) < 4
    ensures Writes(s, e).Keys == {Places(e.k)[AppliedBy(s.entries[e.k].proc)]}
  {
    assert EntryInv(s, e.k, s.entries[e.k]);
    GeneratedAtPlaces(CAProtocol.Subject(s, e.k), AppliedBy(s.entries[e.k].proc));
  }

  lemma WritesApart(s: Cluster, e: Event, e': Event)
    requires Inv(s) && Enabled(s, e) && Enabled(s, e') && Touched(e).Some? && Touched(e').Some?
    requires Touched(e) != Touched(e')
    ensures Writes(s, e).Keys !! Writes(s, e').Keys
  {
    if IsApply(e) && IsApply(e') {
      var i, i' := AppliedBy(s.entries[e.k].proc), AppliedBy(s.entries[e'.k].proc);
      WritesAtPlace(s, e);
      WritesAtPlace(s, e');
      if Places(e.k)[i] == Places(e'.k)[i'] {
        GeneratorKeysDisjoint(e.k, i, e'.k, i');
      }
    }
  }

  /** Two steps about different resources, one after the other, make both changes. */
  lemma ApartSteps(s: Cluster, e: Event, k: NamespacedName, e': Event, k': NamespacedName)
    requires Enabled(s, e) && Enabled(s, e') && Touched(e) == Some(k) && Touched(e') == Some(k') && k != k'
    ensures k in Next(s, e).entries && k' in Next(s, e').entries
    ensures Enabled(Next(s, e), e')
    ensures Next(Next(s, e), e') ==
            s.(entries := s.entries[k := Next(s, e).entries[k]][k' := Next(s, e').entries[k']],
               objects := s.objects + Writes(s, e) + Writes(s, e'))
  {
    StepIsLocal(s, s, e, k);
    StepIsLocal(s, s, e', k');
    StepIsLocal(s, Next(s, e), e', k');
  }

  /** In every reachable state: steps about different ChiaCA resources write different objects and
      commute; neither enables nor disables the other. */
  lemma StepsCommute(es: seq<Event>, e: Event, e': Event)
    requires IsTrace(es) && Enabled(After(es), e) && Enabled(After(es), e')
    requires Touched(e).Some? && Touched(e').Some? && Touched(e) != Touched(e')
    ensures var s := After(es);
            && Writes(s, e).Keys !! Writes(s, e').Keys
            && Enabled(Next(s, e), e') && Enabled(Next(s, e'), e)
            && Next(Next(s, e), e') == Next(Next(s, e'), e)
  {
    var s, k, k' := After(es), Touched(e).value, Touched(e').value;
    TraceInv(es);
    WritesApart(s, e, e');
    ApartSteps(s, e, k, e', k');
    ApartSteps(s, e', k', e, k);
    SumsCommute(s.objects, Writes(s, e), Writes(s, e'));
    UpdatesCommute(s.entries, k, Next(s, e).entries[k], k', Next(s, e').entries[k']);
  }
}
