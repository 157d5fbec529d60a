/** What a harvester's plot lists turn into: volumes and mounts agree, nothing is lost or invented,
    edits stay local, and no mount hides another. */
module PlotTheorems {
  import opened Wrappers
  import opened Kubernetes
  import opened CustomResources
  import opened Common
  import opened HarvesterController
  import opened Manifests
  import Decimal

  function VolumeNames(vs: seq<Volume>): (r: seq<string>)
    ensures |r| == |vs|
    ensures forall i :: 0 <= i < |vs| ==> r[i] == vs[i].name
  {
    seq(|vs|, i requires 0 <= i < |vs| => vs[i].name)
  }

  function MountNames(ms: seq<VolumeMount>): (r: seq<string>)
    ensures |r| == |ms|
    ensures forall i :: 0 <= i < |ms| ==> r[i] == ms[i].name
  {
    seq(|ms|, i requires 0 <= i < |ms| => ms[i].name)
  }

  function ClaimVolumes(cr: CR): seq<Volume> {
    PlotVolumes(PVC_PREFIX, ClaimSources(Claims(cr.spec.storage)))
  }

  function HostVolumes(cr: CR): seq<Volume> {
    PlotVolumes(HOSTPATH_PREFIX, HostSources(Hosts(cr.spec.storage)))
  }

  function FixedVolumes(cr: CR): (r: seq<Volume>)
    requires ChiaRootSource(cr.spec.storage).Some?
  {
    [Volume(CA_VOLUME, Secret(cr.spec.caSecretName)), Volume(CHIAROOT, ChiaRootSource(cr.spec.storage).value)]
  }

  lemma Segments(cr: CR)
    requires HarvesterVolumes(cr).Some?
    ensures HarvesterVolumes(cr).value == FixedVolumes(cr) + ClaimVolumes(cr) + HostVolumes(cr)
  {
  }

  // ---------- names ----------

  lemma PlotNameInjective(p: string, i: nat, j: nat)
    ensures PlotName(p, i) == PlotName(p, j) ==> i == j
  {
    Decimal.ParseAfterFormat(p, i);
    Decimal.ParseAfterFormat(p, j);
  }

  /** The name of a position below `n`. */
  ghost predicate NamesPosition(p: string, n: nat, name: string) {
    exists i: nat :: i < n && name == PlotName(p, i)
  }

  lemma {:induction false} PlotNames(p: string, xs: seq<Option<VolumeSource>>)
    ensures forall v :: v in PlotVolumes(p, xs) ==> NamesPosition(p, |xs|, v.name)
  {
    if xs != [] {
      var last := |xs| - 1;
      PlotNames(p, xs[..last]);
      forall v | v in PlotVolumes(p, xs) ensures NamesPosition(p, |xs|, v.name) {
        if v in PlotVolumes(p, xs[..last]) {
          var i: nat :| i < last && v.name == PlotName(p, i);
        } else {
          assert v.name == PlotName(p, last);
        }
      }
    }
  }

  /** A list's plots never take the name of a position past its end. */
  lemma NameIsNew(p: string, xs: seq<Option<VolumeSource>>)
    ensures forall v :: v in PlotVolumes(p, xs) ==> v.name != PlotName(p, |xs|)
  {
    PlotNames(p, xs);
    forall v | v in PlotVolumes(p, xs) ensures v.name != PlotName(p, |xs|) {
      var i: nat :| i < |xs| && v.name == PlotName(p, i);
      PlotNameInjective(p, i, |xs|);
    }
  }

  lemma DistinctAppend(a: seq<string>, b: seq<string>)
    requires NoDuplicates(a) && NoDuplicates(b)
    requires forall x :: x in a ==> x !in b
    ensures NoDuplicates(a + b)
  {
    forall i, j | 0 <= i < j < |a + b| ensures (a + b)[i] != (a + b)[j] {
      if i < |a| <= j {
        assert (a + b)[i] in a && (a + b)[j] in b;
      }
    }
  }

  lemma {:induction false} PlotNamesDistinct(p: string, xs: seq<Option<VolumeSource>>)
    ensures NoDuplicates(VolumeNames(PlotVolumes(p, xs)))
  {
    if xs != [] {
      var last := |xs| - 1;
      PlotNamesDistinct(p, xs[..last]);
      NameIsNew(p, xs[..last]);
      var before := VolumeNames(PlotVolumes(p, xs[..last]));
      if xs[last].Some? {
        assert VolumeNames(PlotVolumes(p, xs)) == before + [PlotName(p, last)];
        DistinctAppend(before, [PlotName(p, last)]);
      }
    }
  }

  lemma {:induction false} PlotMountNames(p: string, xs: seq<Option<VolumeSource>>)
    ensures MountNames(PlotMounts(p, xs)) == VolumeNames(PlotVolumes(p, xs))
  {
    if xs != [] {
      PlotMountNames(p, xs[..|xs| - 1]);
      var tail := if xs[|xs| - 1].Some? then [PlotName(p, |xs| - 1)] else [];
      assert MountNames(PlotMounts(p, xs)) == MountNames(PlotMounts(p, xs[..|xs| - 1])) + tail;
      assert VolumeNames(PlotVolumes(p, xs)) == VolumeNames(PlotVolumes(p, xs[..|xs| - 1])) + tail;
    }
  }

  /** Every volume in the list has a name that starts with this character. */
  predicate AllStartWith(c: char, vs: seq<Volume>) {
    forall v :: v in vs ==> |v.name| > 0 && v.name[0] == c
  }

  lemma PlotFirstChar(p: string, xs: seq<Option<VolumeSource>>)
    requires |p| > 0
    ensures AllStartWith(p[0], PlotVolumes(p, xs))
  {
    PlotNames(p, xs);
    forall v | v in PlotVolumes(p, xs) ensures |v.name| > 0 && v.name[0] == p[0] {
      var i: nat :| i < |xs| && v.name == PlotName(p, i);
    }
  }

  lemma FirstChars(cr: CR)
    requires ChiaRootSource(cr.spec.storage).Some?
    ensures FixedVolumes(cr)[0].name[0] == 's' && FixedVolumes(cr)[1].name[0] == 'c'
    ensures AllStartWith('p', ClaimVolumes(cr)) && AllStartWith('h', HostVolumes(cr))
  {
    PlotFirstChar(PVC_PREFIX, ClaimSources(Claims(cr.spec.storage)));
    PlotFirstChar(HOSTPATH_PREFIX, HostSources(Hosts(cr.spec.storage)));
  }

  lemma DistinctSegments(f: seq<Volume>, p: seq<Volume>, h: seq<Volume>)
    requires |f| == 2 && |f[0].name| > 0 && |f[1].name| > 0 && f[0].name[0] == 's' && f[1].name[0] == 'c'
    requires AllStartWith('p', p) && AllStartWith('h', h)
    requires NoDuplicates(VolumeNames(p)) && NoDuplicates(VolumeNames(h))
    ensures NoDuplicates(VolumeNames(f + p + h))
  {
    DistinctAppend(VolumeNames(f), VolumeNames(p));
    DistinctAppend(VolumeNames(f) + VolumeNames(p), VolumeNames(h));
    assert VolumeNames(f + p + h) == VolumeNames(f) + VolumeNames(p) + VolumeNames(h);
  }

  /** What a harvester's Deployment carries is what the two pairs of loops built. */
  lemma HarvesterPod(cr: CR)
    requires cr.component.Harvester?
    ensures Workload(cr).Some? <==> HarvesterVolumes(cr).Some?
    ensures Workload(cr).Some? ==>
              && Workload(cr).value.Deployment? && Pod(cr).volumes == HarvesterVolumes(cr).value
              && Chia(cr).mounts == HarvesterMounts(cr)
  {
    WorkloadParts(cr);
  }

  /** In a harvester's Deployment the mounts name the very volumes, in the same order, each once. */
  lemma VolumesAndMountsAgree(cr: CR)
    requires cr.component.Harvester? && Workload(cr).Some?
    ensures VolumeNames(Pod(cr).volumes) == MountNames(Chia(cr).mounts)
    ensures NoDuplicates(VolumeNames(Pod(cr).volumes))
  {
    HarvesterPod(cr);
    LoopsAgree(cr);
  }

  lemma LoopsAgree(cr: CR)
    requires HarvesterVolumes(cr).Some?
    ensures VolumeNames(HarvesterVolumes(cr).value) == MountNames(HarvesterMounts(cr))
    ensures NoDuplicates(VolumeNames(HarvesterVolumes(cr).value))
  {
    var claims, hosts := ClaimSources(Claims(cr.spec.storage)), HostSources(Hosts(cr.spec.storage));
    Segments(cr);
    FirstChars(cr);
    PlotNamesDistinct(PVC_PREFIX, claims);
    PlotNamesDistinct(HOSTPATH_PREFIX, hosts);
    DistinctSegments(FixedVolumes(cr), ClaimVolumes(cr), HostVolumes(cr));
    PlotMountNames(PVC_PREFIX, claims);
    PlotMountNames(HOSTPATH_PREFIX, hosts);
    NamesOfSegments(cr);
  }

  lemma NamesOfSegments(cr: CR)
    requires HarvesterVolumes(cr).Some?
    ensures VolumeNames(HarvesterVolumes(cr).value) ==
            [CA_VOLUME, CHIAROOT] + VolumeNames(ClaimVolumes(cr)) + VolumeNames(HostVolumes(cr))
    ensures MountNames(HarvesterMounts(cr)) ==
            [CA_VOLUME, CHIAROOT] + MountNames(PlotMounts(PVC_PREFIX, ClaimSources(Claims(cr.spec.storage))))
            + MountNames(PlotMounts(HOSTPATH_PREFIX, HostSources(Hosts(cr.spec.storage))))
  {
  }

  // ---------- reading the configuration back ----------

  /** The plots that a volume list carries under a prefix, each at the position its name spells. */
  function Recover(prefix: string, vs: seq<Volume>): map<nat, VolumeSource> {
    if vs == [] then map[]
    else
      var v := vs[|vs| - 1];
      var before := Recover(prefix, vs[..|vs| - 1]);
      match Decimal.ParseAfter(prefix, v.name)
      case None => before
      case Some(i) => before[i := v.source]
  }

  function NonNil(xs: seq<Option<VolumeSource>>): map<nat, VolumeSource> {
    map i: nat | i < |xs| && xs[i].Some? :: xs[i].value
  }

  lemma {:induction false} RecoverAppend(p: string, a: seq<Volume>, b: seq<Volume>)
    ensures Recover(p, a + b) == Recover(p, a) + Recover(p, b)
  {
    if b == [] {
      assert a + b == a;
    } else {
      RecoverAppend(p, a, b[..|b| - 1]);
      assert (a + b)[..|a + b| - 1] == a + b[..|b| - 1];
    }
  }

  lemma NonNilStep(xs: seq<Option<VolumeSource>>)
    requires xs != []
    ensures var last: nat := |xs| - 1;
            && last !in NonNil(xs[..last])
            && NonNil(xs) == if xs[last].Some? then NonNil(xs[..last])[last := xs[last].value] else NonNil(xs[..last])
  {
  }

  lemma {:induction false} RecoverOwn(p: string, xs: seq<Option<VolumeSource>>)
    ensures Recover(p, PlotVolumes(p, xs)) == NonNil(xs)
    ensures |NonNil(xs)| == |PlotVolumes(p, xs)|
  {
    if xs == [] {
      assert NonNil(xs) == map[];
    } else {
      var last := |xs| - 1;
      RecoverOwn(p, xs[..last]);
      NonNilStep(xs);
      if xs[last].Some? {
        Decimal.ParseAfterFormat(p, last);
        var before := PlotVolumes(p, xs[..last]);
        var all := PlotVolumes(p, xs);
        assert all[..|all| - 1] == before;
      } else {
        assert PlotVolumes(p, xs) == PlotVolumes(p, xs[..last]);
      }
    }
  }

  lemma {:induction false} RecoverForeign(p: string, vs: seq<Volume>)
    requires |p| > 0 && forall v :: v in vs ==> |v.name| > 0 && v.name[0] != p[0]
    ensures Recover(p, vs) == map[]
  {
    if vs != [] {
      RecoverForeign(p, vs[..|vs| - 1]);
    }
  }

  lemma RecoverSegments(p: string, f: seq<Volume>, own: seq<Volume>, other: seq<Volume>)
    requires |p| > 0
    requires forall v :: v in f || v in other ==> |v.name| > 0 && v.name[0] != p[0]
    ensures Recover(p, f + own + other) == Recover(p, own) == Recover(p, f + other + own)
  {
    RecoverAppend(p, f + own, other);
    RecoverAppend(p, f, own);
    RecoverAppend(p, f + other, own);
    RecoverAppend(p, f, other);
    RecoverForeign(p, f);
    RecoverForeign(p, other);
  }

  /** The non-nil entries, each as the source it stands for. */
  function ClaimEntries(xs: seq<Option<PersistentVolumeClaimConfig>>): map<nat, VolumeSource> {
    map i: nat | i < |xs| && xs[i].Some? :: PersistentVolumeClaim(xs[i].value.claimName)
  }

  function HostEntries(xs: seq<Option<HostPathVolumeConfig>>): map<nat, VolumeSource> {
    map i: nat | i < |xs| && xs[i].Some? :: HostPath(xs[i].value.path)
  }

  lemma EntriesOfLists(claims: seq<Option<PersistentVolumeClaimConfig>>, hosts: seq<Option<HostPathVolumeConfig>>)
    ensures NonNil(ClaimSources(claims)) == ClaimEntries(claims)
    ensures NonNil(HostSources(hosts)) == HostEntries(hosts)
  {
    assert NonNil(ClaimSources(claims)).Keys == ClaimEntries(claims).Keys;
    assert NonNil(HostSources(hosts)).Keys == HostEntries(hosts).Keys;
  }

  /** The plot configuration can be read back from the Deployment's own pod: exactly the non-nil entries
      of both lists, each at its own position and with its own claim or path, and not one volume more. */
  lemma PlotRoundTrip(cr: CR)
    requires cr.component.Harvester? && Workload(cr).Some?
    ensures var vs := Pod(cr).volumes;
            var claims, hosts := ClaimEntries(Claims(cr.spec.storage)), HostEntries(Hosts(cr.spec.storage));
            && Recover("pvc-plots-", vs) == claims && Recover("hostpath-plots-", vs) == hosts
            && |vs| == 2 + |claims| + |hosts|
  {
    HarvesterPod(cr);
    LoopsRoundTrip(cr);
    EntriesOfLists(Claims(cr.spec.storage), Hosts(cr.spec.storage));
  }

  lemma LoopsRoundTrip(cr: CR)
    requires HarvesterVolumes(cr).Some?
    ensures var vs := HarvesterVolumes(cr).value;
            var claims, hosts := ClaimSources(Claims(cr.spec.storage)), HostSources(Hosts(cr.spec.storage));
            && Recover(PVC_PREFIX, vs) == NonNil(claims)
            && Recover(HOSTPATH_PREFIX, vs) == NonNil(hosts)
            && |vs| == 2 + |NonNil(claims)| + |NonNil(hosts)|
  {
    Segments(cr);
    FirstChars(cr);
    RecoverOwn(PVC_PREFIX, ClaimSources(Claims(cr.spec.storage)));
    RecoverOwn(HOSTPATH_PREFIX, HostSources(Hosts(cr.spec.storage)));
    RecoverSegments(PVC_PREFIX, FixedVolumes(cr), ClaimVolumes(cr), HostVolumes(cr));
    RecoverSegments(HOSTPATH_PREFIX, FixedVolumes(cr), HostVolumes(cr), ClaimVolumes(cr));
  }

  // ---------- edits ----------

  /** Which source each volume name stands for. */
  function Sources(vs: seq<Volume>): map<string, VolumeSource> {
    if vs == [] then map[]
    else Sources(vs[..|vs| - 1])[vs[|vs| - 1].name := vs[|vs| - 1].source]
  }

  lemma {:induction false} SourcesAppend(a: seq<Volume>, b: seq<Volume>)
    ensures Sources(a + b) == Sources(a) + Sources(b)
  {
    if b == [] {
      assert a + b == a;
    } else {
      SourcesAppend(a, b[..|b| - 1]);
      assert (a + b)[..|a + b| - 1] == a + b[..|b| - 1];
    }
  }

  lemma {:induction false} SourcesNames(vs: seq<Volume>, n: string)
    ensures n in Sources(vs) <==> exists v :: v in vs && v.name == n
  {
    if vs != [] {
      var last := |vs| - 1;
      SourcesNames(vs[..last], n);
      assert vs == vs[..last] + [vs[last]];
    }
  }

  lemma NameUnbound(p: string, xs: seq<Option<VolumeSource>>)
    ensures PlotName(p, |xs|) !in Sources(PlotVolumes(p, xs))
  {
    NameIsNew(p, xs);
    SourcesNames(PlotVolumes(p, xs), PlotName(p, |xs|));
  }

  /** One more entry binds its own name, if it is not nil, and changes nothing else. */
  lemma AppendBinding(p: string, xs: seq<Option<VolumeSource>>, x: Option<VolumeSource>)
    ensures PlotName(p, |xs|) !in Sources(PlotVolumes(p, xs))
    ensures Sources(PlotVolumes(p, xs + [x])) ==
            var before := Sources(PlotVolumes(p, xs));
            if x.Some? then before[PlotName(p, |xs|) := x.value] else before
  {
    NameUnbound(p, xs);
    assert (xs + [x])[..|xs|] == xs;
    var before, after := PlotVolumes(p, xs), PlotVolumes(p, xs + [x]);
    if x.Some? {
      assert after[..|after| - 1] == before;
    } else {
      assert after == before;
    }
  }

  lemma RemoveAfterExtend(m: map<string, VolumeSource>, k: string, v: VolumeSource, n: string)
    ensures n != k ==> (m - {n})[k := v] == m[k := v] - {n}
    ensures k !in m ==> m[k := v] - {k} == m && m - {k} == m
  {
  }

  lemma RemoveLast(p: string, front: seq<Option<VolumeSource>>, x: Option<VolumeSource>)
    ensures Sources(PlotVolumes(p, front + [None])) ==
            Sources(PlotVolumes(p, front + [x])) - {PlotName(p, |front|)}
  {
    AppendBinding(p, front, x);
    AppendBinding(p, front, None);
    RemoveAfterExtend(Sources(PlotVolumes(p, front)), PlotName(p, |front|), x.GetOr(EmptyDir), PlotName(p, |front|));
  }

  lemma RemoveEarlier(p: string, front: seq<Option<VolumeSource>>, front': seq<Option<VolumeSource>>,
                      x: Option<VolumeSource>, i: nat)
    requires i < |front| == |front'|
    requires Sources(PlotVolumes(p, front')) == Sources(PlotVolumes(p, front)) - {PlotName(p, i)}
    ensures Sources(PlotVolumes(p, front' + [x])) == Sources(PlotVolumes(p, front + [x])) - {PlotName(p, i)}
  {
    AppendBinding(p, front, x);
    AppendBinding(p, front', x);
    PlotNameInjective(p, i, |front|);
    RemoveAfterExtend(Sources(PlotVolumes(p, front)), PlotName(p, |front|), x.GetOr(EmptyDir), PlotName(p, i));
  }

  /** A list with the entry at `i` made nil loses that entry's binding and nothing else. */
  lemma {:induction false} RemoveBinding(p: string, xs: seq<Option<VolumeSource>>, i: nat)
    requires i < |xs|
    ensures Sources(PlotVolumes(p, xs[i := None])) == Sources(PlotVolumes(p, xs)) - {PlotName(p, i)}
  {
    var last := |xs| - 1;
    var front, x := xs[..last], xs[last];
    assert xs == front + [x];
    if i == last {
      assert xs[i := None] == front + [None];
      RemoveLast(p, front, x);
    } else {
      assert xs[i := None] == front[i := None] + [x];
      RemoveBinding(p, front, i);
      RemoveEarlier(p, front, front[i := None], x, i);
    }
  }

  /** The resource with other plots; storage that was nil comes to be. */
  function WithPlots(cr: CR, plots: PlotsConfig): CR {
    var root := if cr.spec.storage.Some? then cr.spec.storage.value.chiaRoot else None;
    cr.(spec := cr.spec.(storage := Some(StorageConfig(root, Some(plots)))))
  }

  function WithClaims(cr: CR, claims: seq<Option<PersistentVolumeClaimConfig>>): CR {
    WithPlots(cr, Plots(cr.spec.storage).(pvcs := Some(claims)))
  }

  function WithHosts(cr: CR, hosts: seq<Option<HostPathVolumeConfig>>): CR {
    WithPlots(cr, Plots(cr.spec.storage).(hostPaths := Some(hosts)))
  }

  /** Other plots leave all else as it is. */
  lemma PlotsOnly(cr: CR, plots: PlotsConfig)
    requires cr.component.Harvester? && Workload(cr).Some?
    ensures Workload(WithPlots(cr, plots)).Some? && ChiaRootSource(cr.spec.storage).Some?
    ensures ChiaRootSource(WithPlots(cr, plots).spec.storage).Some?
    ensures FixedVolumes(WithPlots(cr, plots)) == FixedVolumes(cr)
    ensures Plots(WithPlots(cr, plots).spec.storage) == plots
  {
    HarvesterPod(cr);
    HarvesterPod(WithPlots(cr, plots));
  }

  /** Which source each volume name stands for in the Deployment's pod. */
  function PodSources(cr: CR): map<string, VolumeSource>
    requires cr.component.Harvester? && Workload(cr).Some?
  {
    Sources(Pod(cr).volumes)
  }

  /** The names bound by a list all start with this character. */
  predicate KeysStartWith(c: char, m: map<string, VolumeSource>) {
    forall n :: n in m ==> |n| > 0 && n[0] == c
  }

  lemma SourcesStartWith(c: char, vs: seq<Volume>)
    requires AllStartWith(c, vs)
    ensures KeysStartWith(c, Sources(vs))
  {
    forall n | n in Sources(vs) ensures |n| > 0 && n[0] == c {
      SourcesNames(vs, n);
    }
  }

  lemma SplitSegments(fixed: seq<Volume>, cv: seq<Volume>, hv: seq<Volume>)
    requires |fixed| == 2 && |fixed[0].name| > 0 && |fixed[1].name| > 0
    requires fixed[0].name[0] == 's' && fixed[1].name[0] == 'c'
    requires AllStartWith('p', cv) && AllStartWith('h', hv)
    ensures Sources(fixed + cv + hv) == Sources(fixed) + Sources(cv) + Sources(hv)
    ensures KeysStartWith('p', Sources(cv)) && KeysStartWith('h', Sources(hv))
    ensures forall n :: n in Sources(fixed) ==> |n| > 0 && n[0] != 'p' && n[0] != 'h'
  {
    SourcesAppend(fixed + cv, hv);
    SourcesAppend(fixed, cv);
    SourcesStartWith('p', cv);
    SourcesStartWith('h', hv);
    forall n | n in Sources(fixed) ensures |n| > 0 && n[0] != 'p' && n[0] != 'h' {
      SourcesNames(fixed, n);
    }
  }

  /** The bindings of a pod are those of the fixed volumes and of the two lists, under separate names. */
  lemma PodSourcesSplit(cr: CR)
    returns (f: map<string, VolumeSource>, p: map<string, VolumeSource>, h: map<string, VolumeSource>)
    requires cr.component.Harvester? && Workload(cr).Some?
    ensures PodSources(cr) == f + p + h && ChiaRootSource(cr.spec.storage).Some?
    ensures f == Sources(FixedVolumes(cr)) && p == Sources(ClaimVolumes(cr)) && h == Sources(HostVolumes(cr))
    ensures forall n :: n in f ==> |n| > 0 && n[0] != 'p' && n[0] != 'h'
    ensures KeysStartWith('p', p) && KeysStartWith('h', h)
  {
    HarvesterPod(cr);
    Segments(cr);
    FirstChars(cr);
    SplitSegments(FixedVolumes(cr), ClaimVolumes(cr), HostVolumes(cr));
    f, p, h := Sources(FixedVolumes(cr)), Sources(ClaimVolumes(cr)), Sources(HostVolumes(cr));
  }

  lemma PlotNameStart(p: string, i: nat)
    requires |p| > 0
    ensures |PlotName(p, i)| > 0 && PlotName(p, i)[0] == p[0]
  {
  }

  /** Changing one binding of one part changes that binding of the whole, if the other parts lack the name. */
  lemma EditMiddle(f: map<string, VolumeSource>, p: map<string, VolumeSource>, h: map<string, VolumeSource>,
                   n: string, v: VolumeSource)
    requires n !in f && n !in h
    ensures f + p[n := v] + h == (f + p + h)[n := v]
    ensures f + (p - {n}) + h == (f + p + h) - {n}
    ensures n in f + p + h <==> n in p
  {
  }

  lemma EditLast(f: map<string, VolumeSource>, p: map<string, VolumeSource>, h: map<string, VolumeSource>,
                 n: string, v: VolumeSource)
    requires n !in f && n !in p
    ensures f + p + h[n := v] == (f + p + h)[n := v]
    ensures f + p + (h - {n}) == (f + p + h) - {n}
    ensures n in f + p + h <==> n in h
  {
  }

  lemma ClaimBinding(claims: seq<Option<PersistentVolumeClaimConfig>>, x: Option<PersistentVolumeClaimConfig>)
    ensures var before, name := Sources(PlotVolumes(PVC_PREFIX, ClaimSources(claims))), PlotName(PVC_PREFIX, |claims|);
            && name !in before
            && Sources(PlotVolumes(PVC_PREFIX, ClaimSources(claims + [x]))) ==
               if x.Some? then before[name := PersistentVolumeClaim(x.value.claimName)] else before
  {
    assert ClaimSources(claims + [x]) == ClaimSources(claims) + [ClaimSource(x)];
    AppendBinding(PVC_PREFIX, ClaimSources(claims), ClaimSource(x));
  }

  /** Appending a claim, be it the first, adds one binding, or none for a nil entry; no other volume is
      renamed or re-sourced. */
  lemma AppendClaim(cr: CR, x: Option<PersistentVolumeClaimConfig>)
    requires cr.component.Harvester? && Workload(cr).Some?
    ensures var claims := Claims(cr.spec.storage);
            var before, name := PodSources(cr), PlotName("pvc-plots-", |claims|);
            && name !in before && Workload(WithClaims(cr, claims + [x])).Some?
            && PodSources(WithClaims(cr, claims + [x])) ==
               if x.Some? then before[name := PersistentVolumeClaim(x.value.claimName)] else before
  {
    var claims := Claims(cr.spec.storage);
    PlotsOnly(cr, Plots(cr.spec.storage).(pvcs := Some(claims + [x])));
    var f, p, h := PodSourcesSplit(cr);
    var _, p', _ := PodSourcesSplit(WithClaims(cr, claims + [x]));
    ClaimBinding(claims, x);
    PlotNameStart(PVC_PREFIX, |claims|);
    EditMiddle(f, p, h, PlotName(PVC_PREFIX, |claims|), ClaimSource(x).GetOr(EmptyDir));
  }

  lemma HostBinding(hosts: seq<Option<HostPathVolumeConfig>>, x: Option<HostPathVolumeConfig>)
    ensures var before := Sources(PlotVolumes(HOSTPATH_PREFIX, HostSources(hosts)));
            var name := PlotName(HOSTPATH_PREFIX, |hosts|);
            && name !in before
            && Sources(PlotVolumes(HOSTPATH_PREFIX, HostSources(hosts + [x]))) ==
               if x.Some? then before[name := HostPath(x.value.path)] else before
  {
    assert HostSources(hosts + [x]) == HostSources(hosts) + [HostSource(x)];
    AppendBinding(HOSTPATH_PREFIX, HostSources(hosts), HostSource(x));
  }

  lemma AppendHost(cr: CR, x: Option<HostPathVolumeConfig>)
    requires cr.component.Harvester? && Workload(cr).Some?
    ensures var hosts := Hosts(cr.spec.storage);
            var before, name := PodSources(cr), PlotName("hostpath-plots-", |hosts|);
            && name !in before && Workload(WithHosts(cr, hosts + [x])).Some?
            && PodSources(WithHosts(cr, hosts + [x])) ==
               if x.Some? then before[name := HostPath(x.value.path)] else before
  {
    var hosts := Hosts(cr.spec.storage);
    PlotsOnly(cr, Plots(cr.spec.storage).(hostPaths := Some(hosts + [x])));
    var f, p, h := PodSourcesSplit(cr);
    var _, _, h' := PodSourcesSplit(WithHosts(cr, hosts + [x]));
    HostBinding(hosts, x);
    PlotNameStart(HOSTPATH_PREFIX, |hosts|);
    EditLast(f, p, h, PlotName(HOSTPATH_PREFIX, |hosts|), HostSource(x).GetOr(EmptyDir));
  }

  lemma ClaimUnbinding(claims: seq<Option<PersistentVolumeClaimConfig>>, i: nat)
    requires i < |claims|
    ensures Sources(PlotVolumes(PVC_PREFIX, ClaimSources(claims[i := None]))) ==
            Sources(PlotVolumes(PVC_PREFIX, ClaimSources(claims))) - {PlotName(PVC_PREFIX, i)}
  {
    assert ClaimSources(claims[i := None]) == ClaimSources(claims)[i := None];
    RemoveBinding(PVC_PREFIX, ClaimSources(claims), i);
  }

  /** Setting an entry to nil removes its binding; no other volume is renamed or re-sourced. */
  lemma RemoveClaim(cr: CR, i: nat)
    requires cr.component.Harvester? && Workload(cr).Some? && i < |Claims(cr.spec.storage)|
    ensures var claims := Claims(cr.spec.storage);
            && Workload(WithClaims(cr, claims[i := None])).Some?
            && PodSources(WithClaims(cr, claims[i := None])) == PodSources(cr) - {PlotName("pvc-plots-", i)}
  {
    var claims := Claims(cr.spec.storage);
    PlotsOnly(cr, Plots(cr.spec.storage).(pvcs := Some(claims[i := None])));
    var f, p, h := PodSourcesSplit(cr);
    var _, p', _ := PodSourcesSplit(WithClaims(cr, claims[i := None]));
    ClaimUnbinding(claims, i);
    PlotNameStart(PVC_PREFIX, i);
    EditMiddle(f, p, h, PlotName(PVC_PREFIX, i), EmptyDir);
  }

  lemma HostUnbinding(hosts: seq<Option<HostPathVolumeConfig>>, i: nat)
    requires i < |hosts|
    ensures Sources(PlotVolumes(HOSTPATH_PREFIX, HostSources(hosts[i := None]))) ==
            Sources(PlotVolumes(HOSTPATH_PREFIX, HostSources(hosts))) - {PlotName(HOSTPATH_PREFIX, i)}
  {
    assert HostSources(hosts[i := None]) == HostSources(hosts)[i := None];
    RemoveBinding(HOSTPATH_PREFIX, HostSources(hosts), i);
  }

  lemma RemoveHost(cr: CR, i: nat)
    requires cr.component.Harvester? && Workload(cr).Some? && i < |Hosts(cr.spec.storage)|
    ensures var hosts := Hosts(cr.spec.storage);
            && Workload(WithHosts(cr, hosts[i := None])).Some?
            && PodSources(WithHosts(cr, hosts[i := None])) == PodSources(cr) - {PlotName("hostpath-plots-", i)}
  {
    var hosts := Hosts(cr.spec.storage);
    PlotsOnly(cr, Plots(cr.spec.storage).(hostPaths := Some(hosts[i := None])));
    var f, p, h := PodSourcesSplit(cr);
    var _, _, h' := PodSourcesSplit(WithHosts(cr, hosts[i := None]));
    HostUnbinding(hosts, i);
    PlotNameStart(HOSTPATH_PREFIX, i);
    EditLast(f, p, h, PlotName(HOSTPATH_PREFIX, i), EmptyDir);
  }
}
