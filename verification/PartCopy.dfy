/** The generated deep copies of the parts of a resource (api/v1/zz_generated.deepcopy.go), on a heap.
    A Go struct is a value that may hold references: pointers, maps and slices, each of which may be
    nil, and any of which may alias another. A region is a set of heap objects; `...In(x, R)` says that
    all that is reachable from `x` lies in `R`, and `...View(x, R)` is what a reader of `x` can see.

    `...Into` is the code's `DeepCopyInto`, in its order: the target takes the input as it stands, and
    then each reference is replaced, and filled by reading the input again. So a target that is the
    input itself loses what its references held; each contract says exactly when. */
module PartCopy {
  import opened Wrappers
  import opened GoHeap
  import C = CustomResources

  type Region = set<object>

  datatype ChiaRootConfig = ChiaRootConfig(pvc: Ref?<C.PersistentVolumeClaimConfig>,
                                           hostPath: Ref?<C.HostPathVolumeConfig>)

  datatype PlotsConfig = PlotsConfig(pvcs: array?<Ref?<C.PersistentVolumeClaimConfig>>,
                                     hostPaths: array?<Ref?<C.HostPathVolumeConfig>>)

  datatype StorageConfig = StorageConfig(chiaRoot: Ref?<ChiaRootConfig>, plots: Ref?<PlotsConfig>)

  datatype AdditionalMetadata = AdditionalMetadata(labels: GoMap?, annotations: GoMap?)

  datatype ExporterConfig = ExporterConfig(image: string, serviceLabels: GoMap?)

  // ---------- pointers, and slices of pointers ----------

  /** A nil reference is everywhere. */
  predicate Within(p: object?, R: Region) {
    p == null || p in R
  }

  function PtrView<T>(p: Ref?<T>): Option<T>
    reads p
  {
    if p == null then None else Some(p.v)
  }

  predicate PtrsIn<T>(s: seq<Ref?<T>>, R: Region) {
    forall i :: 0 <= i < |s| ==> Within(s[i], R)
  }

  function Pointees<T>(s: seq<Ref?<T>>, R: Region): (r: seq<Option<T>>)
    requires PtrsIn(s, R)
    reads R
    ensures |r| == |s| && forall i :: 0 <= i < |s| ==> r[i] == PtrView(s[i])
  {
    if s == [] then [] else Pointees(s[..|s| - 1], R) + [PtrView(s[|s| - 1])]
  }

  predicate SliceIn<T>(a: array?<Ref?<T>>, R: Region)
    reads R
  {
    a == null || (a in R && PtrsIn(a[..], R))
  }

  function SliceView<T>(a: array?<Ref?<T>>, R: Region): Option<seq<Option<T>>>
    requires SliceIn(a, R)
    reads R
  {
    if a == null then None else Some(Pointees(a[..], R))
  }

  // ---------- Go's zero values ----------

  const BLANK_CLAIM := C.PersistentVolumeClaimConfig("", "", C.Malformed(""))
  const BLANK_HOST := C.HostPathVolumeConfig("")

  /** What is left of something that a pointer showed, once the pointer is new. */
  function Hollow<T>(shown: Option<T>, blank: T): Option<T> {
    if shown.None? then None else Some(blank)
  }

  // ---------- metadata and exporter: maps ----------

  /** The loop over the keys, into a new map; `src` may be that map itself. */
  method FillMap(made: GoMap, src: GoMap)
    requires made.m == map[]
    modifies made
    ensures made.m == old(src.m)
  {
    assert map[] + src.m == src.m;
    RangeInto(made, src);
  }

  predicate MetadataIn(x: AdditionalMetadata, R: Region) {
    Within(x.labels, R) && Within(x.annotations, R)
  }

  datatype MetadataContents = MetadataContents(labels: Option<map<string, string>>,
                                               annotations: Option<map<string, string>>)

  function MetadataView(x: AdditionalMetadata, R: Region): MetadataContents
    requires MetadataIn(x, R)
    reads R
  {
    MetadataContents(MapView(x.labels), MapView(x.annotations))
  }

  method MetadataInto(src: Ref<AdditionalMetadata>, out: Ref<AdditionalMetadata>, ghost S: Region)
    returns (ghost R: Region)
    requires MetadataIn(src.v, S)
    modifies out
    ensures fresh(R) && MetadataIn(out.v, R)
    ensures var was, now := old(MetadataView(src.v, S)), MetadataView(out.v, R);
            && now == (if src != out then was
                       else MetadataContents(Hollow(was.labels, map[]), Hollow(was.annotations, map[])))
            && (now == was <==>
                  src != out || (was.labels.GetOr(map[]) == map[] && was.annotations.GetOr(map[]) == map[]))
  {
    out.v := src.v;
    R := {};
    if src.v.labels != null {
      var made := new GoMap();
      out.v := out.v.(labels := made);
      FillMap(made, src.v.labels);
      R := R + {made};
    }
    if src.v.annotations != null {
      var made := new GoMap();
      out.v := out.v.(annotations := made);
      FillMap(made, src.v.annotations);
      R := R + {made};
    }
  }

  datatype ExporterContents = ExporterContents(image: string, serviceLabels: Option<map<string, string>>)

  predicate ExporterIn(x: ExporterConfig, R: Region) {
    Within(x.serviceLabels, R)
  }

  function ExporterView(x: ExporterConfig, R: Region): ExporterContents
    requires ExporterIn(x, R)
    reads R
  {
    ExporterContents(x.image, MapView(x.serviceLabels))
  }

  method ExporterInto(src: Ref<ExporterConfig>, out: Ref<ExporterConfig>, ghost S: Region) returns (ghost R: Region)
    requires ExporterIn(src.v, S)
    modifies out
    ensures fresh(R) && ExporterIn(out.v, R)
    ensures var was, now := old(ExporterView(src.v, S)), ExporterView(out.v, R);
            && now == (if src != out then was else was.(serviceLabels := Hollow(was.serviceLabels, map[])))
            && (now == was <==> src != out || was.serviceLabels.GetOr(map[]) == map[])
  {
    out.v := src.v;
    R := {};
    if src.v.serviceLabels != null {
      var made := new GoMap();
      out.v := out.v.(serviceLabels := made);
      FillMap(made, src.v.serviceLabels);
      R := R + {made};
    }
  }

  // ---------- CHIA_ROOT: pointers ----------

  predicate ChiaRootIn(x: ChiaRootConfig, R: Region) {
    Within(x.pvc, R) && Within(x.hostPath, R)
  }

  function ChiaRootView(x: ChiaRootConfig, R: Region): C.ChiaRootConfig
    requires ChiaRootIn(x, R)
    reads R
  {
    C.ChiaRootConfig(PtrView(x.pvc), PtrView(x.hostPath))
  }

  method ChiaRootInto(src: Ref<ChiaRootConfig>, out: Ref<ChiaRootConfig>, ghost S: Region) returns (ghost R: Region)
    requires ChiaRootIn(src.v, S)
    modifies out
    ensures fresh(R) && ChiaRootIn(out.v, R)
    ensures var was, now := old(ChiaRootView(src.v, S)), ChiaRootView(out.v, R);
            && now == (if src != out then was
                       else C.ChiaRootConfig(Hollow(was.pvc, BLANK_CLAIM), Hollow(was.hostPath, BLANK_HOST)))
            && (now == was <==>
                  || src != out
                  || (was.pvc.GetOr(BLANK_CLAIM) == BLANK_CLAIM && was.hostPath.GetOr(BLANK_HOST) == BLANK_HOST))
  {
    out.v := src.v;
    R := {};
    if src.v.pvc != null {
      var made := new Ref(BLANK_CLAIM);
      out.v := out.v.(pvc := made);
      made.v := src.v.pvc.v;
      R := R + {made};
    }
    if src.v.hostPath != null {
      var made := new Ref(BLANK_HOST);
      out.v := out.v.(hostPath := made);
      made.v := src.v.hostPath.v;
      R := R + {made};
    }
  }

  // ---------- plots: slices of pointers ----------

  predicate PlotsIn(x: PlotsConfig, R: Region)
    reads R
  {
    SliceIn(x.pvcs, R) && SliceIn(x.hostPaths, R)
  }

  function PlotsView(x: PlotsConfig, R: Region): C.PlotsConfig
    requires PlotsIn(x, R)
    reads R
  {
    C.PlotsConfig(SliceView(x.pvcs, R), SliceView(x.hostPaths, R))
  }

  lemma SliceWider<T>(a: array?<Ref?<T>>, R: Region, R': Region)
    requires SliceIn(a, R) && R <= R'
    ensures SliceIn(a, R') && SliceView(a, R') == SliceView(a, R)
  {
    if a != null {
      assert Pointees(a[..], R) == Pointees(a[..], R');
    }
  }

  lemma PlotsWider(x: PlotsConfig, R: Region, R': Region)
    requires PlotsIn(x, R) && R <= R'
    ensures PlotsIn(x, R') && PlotsView(x, R') == PlotsView(x, R)
  {
    SliceWider(x.pvcs, R, R');
    SliceWider(x.hostPaths, R, R');
  }

  /** As many nil entries. */
  function Nils<T>(n: nat): (r: seq<Option<T>>)
    ensures |r| == n && forall i :: 0 <= i < n ==> r[i] == None
  {
    seq(n, i => None)
  }

  /** What is left of a slice, once its array is new. */
  function Emptied<T>(shown: Option<seq<Option<T>>>): Option<seq<Option<T>>> {
    if shown.None? then None else Some(Nils(|shown.value|))
  }

  /** A nil or empty slice, or one of nil entries only. */
  predicate NothingIn<T>(shown: Option<seq<Option<T>>>) {
    shown.Some? ==> forall i :: 0 <= i < |shown.value| ==> shown.value[i].None?
  }

  lemma EmptiedIff<T>(shown: Option<seq<Option<T>>>)
    ensures Emptied(shown) == shown <==> NothingIn(shown)
  {
    if shown.Some? && NothingIn(shown) {
      assert shown.value == Nils(|shown.value|);
    }
  }

  /** The loop over the slots, into a new array of nil; `src` may be that array itself. */
  method FillSlots<T>(src: array<Ref?<T>>, made: array<Ref?<T>>) returns (ghost R: Region)
    requires src.Length == made.Length && forall j :: 0 <= j < made.Length ==> made[j] == null
    modifies made
    ensures fresh(R) && made !in R
    ensures forall j :: 0 <= j < made.Length ==> Within(made[j], R) && PtrView(made[j]) == old(PtrView(src[j]))
  {
    R := {};
    for i := 0 to src.Length
      invariant fresh(R) && made !in R
      invariant forall j :: 0 <= j < i ==> Within(made[j], R) && PtrView(made[j]) == old(PtrView(src[j]))
      invariant forall j :: i <= j < made.Length ==> made[j] == null
      invariant forall j :: i <= j < src.Length ==> src[j] == old(src[j])
    {
      if src[i] != null {
        made[i] := new Ref(src[i].v);
        R := R + {made[i]};
      }
    }
  }

  lemma PlotsEmptiedIff(x: C.PlotsConfig)
    ensures C.PlotsConfig(Emptied(x.pvcs), Emptied(x.hostPaths)) == x <==> NothingIn(x.pvcs) && NothingIn(x.hostPaths)
  {
    EmptiedIff(x.pvcs);
    EmptiedIff(x.hostPaths);
  }

  /** A region may hold the cell of a plots configuration, but nothing in one reaches it. */
  lemma SlicesApart(x: PlotsConfig, R: Region, o: Ref<PlotsConfig>)
    requires PlotsIn(x, R)
    ensures PlotsIn(x, R - {o}) && PlotsView(x, R - {o}) == PlotsView(x, R)
  {
    PlotsWider(x, R - {o}, R);
  }

  /** `in, out := &in.PersistentVolumeClaim, &out.PersistentVolumeClaim` and what follows. */
  method ClaimsInto(src: Ref<PlotsConfig>, out: Ref<PlotsConfig>, ghost S: Region) returns (ghost R: Region)
    requires SliceIn(src.v.pvcs, S) && out.v.pvcs == src.v.pvcs && out !in S
    modifies out
    ensures fresh(R) && SliceIn(out.v.pvcs, R) && out.v == old(out.v).(pvcs := out.v.pvcs)
    ensures SliceView(out.v.pvcs, R) ==
            if src != out then old(SliceView(src.v.pvcs, S)) else Emptied(old(SliceView(src.v.pvcs, S)))
  {
    R := {};
    if src.v.pvcs != null {
      ghost var was := Pointees(src.v.pvcs[..], S);
      var made := new Ref?<C.PersistentVolumeClaimConfig>[src.v.pvcs.Length](_ => null);
      out.v := out.v.(pvcs := made);
      R := FillSlots(src.v.pvcs, made);
      R := R + {made};
      assert Pointees(made[..], R) == if src != out then was else Nils(|was|);
    }
  }

  method HostsInto(src: Ref<PlotsConfig>, out: Ref<PlotsConfig>, ghost S: Region) returns (ghost R: Region)
    requires SliceIn(src.v.hostPaths, S) && out.v.hostPaths == src.v.hostPaths && out !in S
    modifies out
    ensures fresh(R) && SliceIn(out.v.hostPaths, R) && out.v == old(out.v).(hostPaths := out.v.hostPaths)
    ensures SliceView(out.v.hostPaths, R) ==
            if src != out then old(SliceView(src.v.hostPaths, S)) else Emptied(old(SliceView(src.v.hostPaths, S)))
  {
    R := {};
    if src.v.hostPaths != null {
      ghost var was := Pointees(src.v.hostPaths[..], S);
      var made := new Ref?<C.HostPathVolumeConfig>[src.v.hostPaths.Length](_ => null);
      out.v := out.v.(hostPaths := made);
      R := FillSlots(src.v.hostPaths, made);
      R := R + {made};
      assert Pointees(made[..], R) == if src != out then was else Nils(|was|);
    }
  }

  lemma PlotsJoined(x: PlotsConfig, R0: Region, R1: Region)
    requires SliceIn(x.pvcs, R0) && SliceIn(x.hostPaths, R1)
    ensures PlotsIn(x, R0 + R1)
    ensures PlotsView(x, R0 + R1) == C.PlotsConfig(SliceView(x.pvcs, R0), SliceView(x.hostPaths, R1))
  {
    SliceWider(x.pvcs, R0, R0 + R1);
    SliceWider(x.hostPaths, R1, R0 + R1);
  }

  /** The two lists one after the other, once the target has taken the input as it stands. */
  method ListsInto(src: Ref<PlotsConfig>, out: Ref<PlotsConfig>, ghost S: Region) returns (ghost R: Region)
    requires PlotsIn(src.v, S) && out.v == src.v && out !in S
    modifies out
    ensures fresh(R) && PlotsIn(out.v, R)
    ensures var was := old(PlotsView(src.v, S));
            PlotsView(out.v, R) == if src != out then was else C.PlotsConfig(Emptied(was.pvcs), Emptied(was.hostPaths))
  {
    ghost var R0 := ClaimsInto(src, out, S);
    ghost var R1 := HostsInto(src, out, S);
    R := R0 + R1;
    PlotsJoined(out.v, R0, R1);
  }

  method PlotsInto(src: Ref<PlotsConfig>, out: Ref<PlotsConfig>, ghost S: Region) returns (ghost R: Region)
    requires PlotsIn(src.v, S)
    modifies out
    ensures fresh(R) && PlotsIn(out.v, R)
    ensures var was, now := old(PlotsView(src.v, S)), PlotsView(out.v, R);
            && now == (if src != out then was else C.PlotsConfig(Emptied(was.pvcs), Emptied(was.hostPaths)))
            && (now == was <==> src != out || (NothingIn(was.pvcs) && NothingIn(was.hostPaths)))
  {
    SlicesApart(src.v, S, out);
    PlotsEmptiedIff(PlotsView(src.v, S));
    out.v := src.v;
    R := ListsInto(src, out, S - {out});
  }

  // ---------- storage: pointers to structs with references of their own ----------

  predicate ChiaRootPtrIn(p: Ref?<ChiaRootConfig>, R: Region)
    reads R
  {
    p == null || (p in R && ChiaRootIn(p.v, R))
  }

  function ChiaRootPtrView(p: Ref?<ChiaRootConfig>, R: Region): Option<C.ChiaRootConfig>
    requires ChiaRootPtrIn(p, R)
    reads R
  {
    if p == null then None else Some(ChiaRootView(p.v, R))
  }

  predicate PlotsPtrIn(p: Ref?<PlotsConfig>, R: Region)
    reads R
  {
    p == null || (p in R && PlotsIn(p.v, R))
  }

  function PlotsPtrView(p: Ref?<PlotsConfig>, R: Region): Option<C.PlotsConfig>
    requires PlotsPtrIn(p, R)
    reads R
  {
    if p == null then None else Some(PlotsView(p.v, R))
  }

  predicate StorageIn(x: StorageConfig, R: Region)
    reads R
  {
    ChiaRootPtrIn(x.chiaRoot, R) && PlotsPtrIn(x.plots, R)
  }

  function StorageView(x: StorageConfig, R: Region): C.StorageConfig
    requires StorageIn(x, R)
    reads R
  {
    C.StorageConfig(ChiaRootPtrView(x.chiaRoot, R), PlotsPtrView(x.plots, R))
  }

  lemma StorageWider(x: StorageConfig, R: Region, R': Region)
    requires StorageIn(x, R) && R <= R'
    ensures StorageIn(x, R') && StorageView(x, R') == StorageView(x, R)
  {
    if x.plots != null {
      PlotsWider(x.plots.v, R, R');
    }
  }

  const BLANK_ROOT := C.ChiaRootConfig(None, None)
  const BLANK_PLOTS := C.PlotsConfig(None, None)

  /** A region may hold the cell of a storage configuration, but nothing in one reaches it. */
  lemma PartsApart(x: StorageConfig, R: Region, o: Ref<StorageConfig>)
    requires StorageIn(x, R)
    ensures StorageIn(x, R - {o}) && StorageView(x, R - {o}) == StorageView(x, R)
  {
    StorageWider(x, R - {o}, R);
  }

  lemma PartsJoined(x: StorageConfig, R0: Region, R1: Region)
    requires ChiaRootPtrIn(x.chiaRoot, R0) && PlotsPtrIn(x.plots, R1)
    ensures StorageIn(x, R0 + R1)
    ensures StorageView(x, R0 + R1) == C.StorageConfig(ChiaRootPtrView(x.chiaRoot, R0), PlotsPtrView(x.plots, R1))
  {
    if x.plots != null {
      PlotsWider(x.plots.v, R1, R0 + R1);
    }
  }

  /** `in, out := &in.ChiaRoot, &out.ChiaRoot` and what follows. */
  method RootInto(src: Ref<StorageConfig>, out: Ref<StorageConfig>, ghost S: Region) returns (ghost R: Region)
    requires ChiaRootPtrIn(src.v.chiaRoot, S) && out.v.chiaRoot == src.v.chiaRoot && out !in S
    modifies out
    ensures fresh(R) && ChiaRootPtrIn(out.v.chiaRoot, R) && out.v == old(out.v).(chiaRoot := out.v.chiaRoot)
    ensures var was := old(ChiaRootPtrView(src.v.chiaRoot, S));
            ChiaRootPtrView(out.v.chiaRoot, R) == if src != out then was else Hollow(was, BLANK_ROOT)
  {
    R := {};
    if src.v.chiaRoot != null {
      var made := new Ref(ChiaRootConfig(null, null));
      out.v := out.v.(chiaRoot := made);
      R := ChiaRootInto(src.v.chiaRoot, made, if src != out then S else {});
      R := R + {made};
    }
  }

  lemma PlotsThrough(p: Ref<PlotsConfig>, R: Region)
    requires PlotsIn(p.v, R)
    ensures PlotsPtrIn(p, R + {p}) && PlotsPtrView(p, R + {p}) == Some(PlotsView(p.v, R))
  {
    PlotsWider(p.v, R, R + {p});
  }

  /** `*out = new(PlotsConfig)`. */
  method BlankPlots() returns (made: Ref<PlotsConfig>)
    ensures fresh(made) && PlotsIn(made.v, {}) && PlotsView(made.v, {}) == BLANK_PLOTS
  {
    made := new Ref(PlotsConfig(null, null));
  }

  method PlotListsInto(src: Ref<StorageConfig>, out: Ref<StorageConfig>, ghost S: Region) returns (ghost R: Region)
    requires PlotsPtrIn(src.v.plots, S) && out.v.plots == src.v.plots && out !in S
    modifies out
    ensures fresh(R) && PlotsPtrIn(out.v.plots, R) && out.v == old(out.v).(plots := out.v.plots)
    ensures var was := old(PlotsPtrView(src.v.plots, S));
            PlotsPtrView(out.v.plots, R) == if src != out then was else Hollow(was, BLANK_PLOTS)
  {
    R := {};
    if src.v.plots != null {
      var made := BlankPlots();
      out.v := out.v.(plots := made);
      ghost var R0 := PlotsInto(src.v.plots, made, if src != out then S else {});
      R := R0 + {made};
      PlotsThrough(made, R0);
    }
  }

  method StorageInto(src: Ref<StorageConfig>, out: Ref<StorageConfig>, ghost S: Region) returns (ghost R: Region)
    requires StorageIn(src.v, S)
    modifies out
    ensures fresh(R) && StorageIn(out.v, R)
    ensures var was, now := old(StorageView(src.v, S)), StorageView(out.v, R);
            && now == (if src != out then was
                       else C.StorageConfig(Hollow(was.chiaRoot, BLANK_ROOT), Hollow(was.plots, BLANK_PLOTS)))
            && (now == was <==>
                  || src != out
                  || (was.chiaRoot.GetOr(BLANK_ROOT) == BLANK_ROOT && was.plots.GetOr(BLANK_PLOTS) == BLANK_PLOTS))
  {
    PartsApart(src.v, S, out);
    out.v := src.v;
    ghost var R0 := RootInto(src, out, S - {out});
    ghost var R1 := PlotListsInto(src, out, S - {out});
    R := R0 + R1;
    PartsJoined(out.v, R0, R1);
  }
}
