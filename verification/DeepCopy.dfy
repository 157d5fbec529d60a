/** The generated deep copies of a resource and of lists of it, put together from those of its parts. */
module DeepCopy {
  import opened Wrappers
  import opened GoHeap
  import opened PartCopy
  import C = CustomResources

  datatype HarvesterConfig = HarvesterConfig(caSecretName: string, farmerAddress: string, testnet: Ref?<bool>,
                                             logLevel: Ref?<string>, timezone: Ref?<string>, image: string)

  datatype HarvesterSpec = HarvesterSpec(metadata: AdditionalMetadata, chia: HarvesterConfig, exporter: ExporterConfig,
                                         storage: Ref?<StorageConfig>, serviceType: string,
                                         imagePullPolicy: Ref?<string>, nodeSelector: GoMap?)

  datatype Harvester = Harvester(meta: C.Meta, spec: HarvesterSpec, ready: bool)

  datatype HarvesterList = HarvesterList(items: array?<Harvester>)

  // ---------- pointers and maps ----------

  /** `*out = new(T); **out = **in`, if there is something to copy. */
  method CopyPtr<T>(p: Ref?<T>) returns (q: Ref?<T>, ghost R: Region)
    ensures fresh(R) && Within(q, R) && PtrView(q) == PtrView(p)
  {
    q, R := p, {};
    if p != null {
      q := new Ref(p.v);
      R := {q};
    }
  }

  /** `*out = make(map[string]string, len(*in))` and the loop over the keys. */
  method CopyMap(p: GoMap?) returns (q: GoMap?, ghost R: Region)
    ensures fresh(R) && Within(q, R) && MapView(q) == MapView(p)
  {
    q, R := p, {};
    if p != null {
      q := new GoMap();
      FillMap(q, p);
      R := {q};
    }
  }

  // ---------- the harvester's spec ----------

  predicate StoragePtrIn(p: Ref?<StorageConfig>, R: Region)
    reads R
  {
    p == null || (p in R && StorageIn(p.v, R))
  }

  function StoragePtrView(p: Ref?<StorageConfig>, R: Region): Option<C.StorageConfig>
    requires StoragePtrIn(p, R)
    reads R
  {
    if p == null then None else Some(StorageView(p.v, R))
  }

  method CopyStorage(p: Ref?<StorageConfig>, ghost S: Region) returns (q: Ref?<StorageConfig>, ghost R: Region)
    requires StoragePtrIn(p, S)
    ensures fresh(R) && StoragePtrIn(q, R) && StoragePtrView(q, R) == StoragePtrView(p, S)
  {
    q, R := p, {};
    if p != null {
      q := new Ref(StorageConfig(null, null));
      ghost var R0 := StorageInto(p, q, S);
      R := R0 + {q};
      StorageWider(q.v, R0, R);
    }
  }

  /** A struct inside a struct: where it lies counts as a cell of its own. */
  method CopyMetadata(src: AdditionalMetadata, ghost S: Region) returns (dst: AdditionalMetadata, ghost R: Region)
    requires MetadataIn(src, S)
    ensures fresh(R) && MetadataIn(dst, R) && MetadataView(dst, R) == MetadataView(src, S)
  {
    var here := new Ref(src);
    var there := new Ref(src);
    R := MetadataInto(here, there, S);
    dst := there.v;
  }

  method CopyExporter(src: ExporterConfig, ghost S: Region) returns (dst: ExporterConfig, ghost R: Region)
    requires ExporterIn(src, S)
    ensures fresh(R) && ExporterIn(dst, R) && ExporterView(dst, R) == ExporterView(src, S)
  {
    var here := new Ref(src);
    var there := new Ref(src);
    R := ExporterInto(here, there, S);
    dst := there.v;
  }

  predicate ConfigIn(x: HarvesterConfig, R: Region) {
    Within(x.testnet, R) && Within(x.logLevel, R) && Within(x.timezone, R)
  }

  datatype ConfigContents = ConfigContents(caSecretName: string, farmerAddress: string, testnet: Option<bool>,
                                           logLevel: Option<string>, timezone: Option<string>, image: string)

  function ConfigView(x: HarvesterConfig, R: Region): ConfigContents
    requires ConfigIn(x, R)
    reads R
  {
    ConfigContents(x.caSecretName, x.farmerAddress, PtrView(x.testnet), PtrView(x.logLevel), PtrView(x.timezone),
                   x.image)
  }

  method CopyConfig(src: HarvesterConfig, ghost S: Region) returns (dst: HarvesterConfig, ghost R: Region)
    requires ConfigIn(src, S)
    ensures fresh(R) && ConfigIn(dst, R) && ConfigView(dst, R) == ConfigView(src, S)
  {
    dst := src;
    var testnet, logLevel, timezone;
    ghost var R0, R1, R2;
    testnet, R0 := CopyPtr(src.testnet);
    dst := dst.(testnet := testnet);
    logLevel, R1 := CopyPtr(src.logLevel);
    dst := dst.(logLevel := logLevel);
    timezone, R2 := CopyPtr(src.timezone);
    dst := dst.(timezone := timezone);
    R := R0 + R1 + R2;
  }

  /** The three structs that lie inside the spec. */
  predicate EmbeddedIn(x: HarvesterSpec, R: Region) {
    MetadataIn(x.metadata, R) && ConfigIn(x.chia, R) && ExporterIn(x.exporter, R)
  }

  datatype EmbeddedContents = EmbeddedContents(metadata: MetadataContents, chia: ConfigContents,
                                               exporter: ExporterContents)

  function EmbeddedView(x: HarvesterSpec, R: Region): EmbeddedContents
    requires EmbeddedIn(x, R)
    reads R
  {
    EmbeddedContents(MetadataView(x.metadata, R), ConfigView(x.chia, R), ExporterView(x.exporter, R))
  }

  /** The spec's own pointers and map. */
  predicate ReferencesIn(x: HarvesterSpec, R: Region)
    reads R
  {
    StoragePtrIn(x.storage, R) && Within(x.imagePullPolicy, R) && Within(x.nodeSelector, R)
  }

  datatype ReferencesContents = ReferencesContents(storage: Option<C.StorageConfig>, imagePullPolicy: Option<string>,
                                                   nodeSelector: Option<map<string, string>>)

  function ReferencesView(x: HarvesterSpec, R: Region): ReferencesContents
    requires ReferencesIn(x, R)
    reads R
  {
    ReferencesContents(StoragePtrView(x.storage, R), PtrView(x.imagePullPolicy), MapView(x.nodeSelector))
  }

  predicate SpecIn(x: HarvesterSpec, R: Region)
    reads R
  {
    EmbeddedIn(x, R) && ReferencesIn(x, R)
  }

  datatype SpecContents = SpecContents(embedded: EmbeddedContents, references: ReferencesContents, serviceType: string)

  function SpecView(x: HarvesterSpec, R: Region): SpecContents
    requires SpecIn(x, R)
    reads R
  {
    SpecContents(EmbeddedView(x, R), ReferencesView(x, R), x.serviceType)
  }

  lemma StoragePtrWider(p: Ref?<StorageConfig>, R: Region, R': Region)
    requires StoragePtrIn(p, R) && R <= R'
    ensures StoragePtrIn(p, R') && StoragePtrView(p, R') == StoragePtrView(p, R)
  {
    if p != null {
      StorageWider(p.v, R, R');
    }
  }

  method CopyEmbedded(src: HarvesterSpec, ghost S: Region) returns (dst: HarvesterSpec, ghost R: Region)
    requires EmbeddedIn(src, S)
    ensures fresh(R) && EmbeddedIn(dst, R) && EmbeddedView(dst, R) == EmbeddedView(src, S)
    ensures dst == src.(metadata := dst.metadata, chia := dst.chia, exporter := dst.exporter)
  {
    dst := src;
    var metadata, chia, exporter;
    ghost var R0, R1, R2;
    metadata, R0 := CopyMetadata(src.metadata, S);
    dst := dst.(metadata := metadata);
    chia, R1 := CopyConfig(src.chia, S);
    dst := dst.(chia := chia);
    exporter, R2 := CopyExporter(src.exporter, S);
    dst := dst.(exporter := exporter);
    R := R0 + R1 + R2;
  }

  method CopyReferences(src: HarvesterSpec, ghost S: Region) returns (dst: HarvesterSpec, ghost R: Region)
    requires ReferencesIn(src, S)
    ensures fresh(R) && ReferencesIn(dst, R) && ReferencesView(dst, R) == ReferencesView(src, S)
    ensures dst == src.(storage := dst.storage, imagePullPolicy := dst.imagePullPolicy,
                        nodeSelector := dst.nodeSelector)
  {
    dst := src;
    var storage, imagePullPolicy, nodeSelector;
    ghost var R0, R1, R2;
    storage, R0 := CopyStorage(src.storage, S);
    dst := dst.(storage := storage);
    imagePullPolicy, R1 := CopyPtr(src.imagePullPolicy);
    dst := dst.(imagePullPolicy := imagePullPolicy);
    nodeSelector, R2 := CopyMap(src.nodeSelector);
    dst := dst.(nodeSelector := nodeSelector);
    R := R0 + R1 + R2;
    StoragePtrWider(storage, R0, R);
  }

  lemma EmbeddedWider(x: HarvesterSpec, R: Region, R': Region)
    requires EmbeddedIn(x, R) && R <= R'
    ensures EmbeddedIn(x, R') && EmbeddedView(x, R') == EmbeddedView(x, R)
  {
  }

  lemma ReferencesWider(x: HarvesterSpec, R: Region, R': Region)
    requires ReferencesIn(x, R) && R <= R'
    ensures ReferencesIn(x, R') && ReferencesView(x, R') == ReferencesView(x, R)
  {
    StoragePtrWider(x.storage, R, R');
  }

  method CopySpec(src: HarvesterSpec, ghost S: Region) returns (dst: HarvesterSpec, ghost R: Region)
    requires SpecIn(src, S)
    ensures fresh(R) && SpecIn(dst, R) && SpecView(dst, R) == SpecView(src, S)
  {
    ghost var R0, R1;
    var embedded;
    embedded, R0 := CopyEmbedded(src, S);
    dst, R1 := CopyReferences(embedded, S);
    R := R0 + R1;
    EmbeddedWider(dst, R0, R);
    ReferencesWider(dst, R1, R);
  }

  // ---------- the resource, and lists of it ----------

  predicate HarvesterIn(x: Harvester, R: Region)
    reads R
  {
    SpecIn(x.spec, R)
  }

  datatype HarvesterContents = HarvesterContents(meta: C.Meta, spec: SpecContents, ready: bool)

  function HarvesterView(x: Harvester, R: Region): HarvesterContents
    requires HarvesterIn(x, R)
    reads R
  {
    HarvesterContents(x.meta, SpecView(x.spec, R), x.ready)
  }

  lemma HarvesterWider(x: Harvester, R: Region, R': Region)
    requires HarvesterIn(x, R) && R <= R'
    ensures HarvesterIn(x, R') && HarvesterView(x, R') == HarvesterView(x, R)
  {
    EmbeddedWider(x.spec, R, R');
    ReferencesWider(x.spec, R, R');
  }

  method CopyHarvester(src: Harvester, ghost S: Region) returns (dst: Harvester, ghost R: Region)
    requires HarvesterIn(src, S)
    ensures fresh(R) && HarvesterIn(dst, R) && HarvesterView(dst, R) == HarvesterView(src, S)
  {
    dst := src;
    var spec;
    spec, R := CopySpec(src.spec, S);
    dst := dst.(spec := spec);
  }

  predicate ItemsIn(s: seq<Harvester>, R: Region)
    reads R
  {
    forall i :: 0 <= i < |s| ==> HarvesterIn(s[i], R)
  }

  function ItemsView(s: seq<Harvester>, R: Region): (r: seq<HarvesterContents>)
    requires ItemsIn(s, R)
    reads R
    ensures |r| == |s| && forall i :: 0 <= i < |s| ==> r[i] == HarvesterView(s[i], R)
  {
    if s == [] then [] else ItemsView(s[..|s| - 1], R) + [HarvesterView(s[|s| - 1], R)]
  }

  predicate ItemArrayIn(a: array<Harvester>, R: Region)
    reads R
  {
    a in R && ItemsIn(a[..], R)
  }

  function ItemArrayView(a: array<Harvester>, R: Region): seq<HarvesterContents>
    requires ItemArrayIn(a, R)
    reads R
  {
    ItemsView(a[..], R)
  }

  predicate ListIn(x: HarvesterList, R: Region)
    reads R
  {
    x.items == null || ItemArrayIn(x.items, R)
  }

  function ListView(x: HarvesterList, R: Region): Option<seq<HarvesterContents>>
    requires ListIn(x, R)
    reads R
  {
    if x.items == null then None else Some(ItemArrayView(x.items, R))
  }

  lemma ItemsWider(s: seq<Harvester>, R: Region, R': Region)
    requires ItemsIn(s, R) && R <= R'
    ensures ItemsIn(s, R') && ItemsView(s, R') == ItemsView(s, R)
  {
    forall i | 0 <= i < |s| ensures HarvesterIn(s[i], R') && HarvesterView(s[i], R') == HarvesterView(s[i], R) {
      HarvesterWider(s[i], R, R');
    }
  }

  // ---------- what a list's own target may not be ----------

  // A region may well hold the cell of a list, but nothing in a list reaches one.

  lemma PlotsApart(x: PlotsConfig, R: Region, o: Ref<HarvesterList>)
    requires PlotsIn(x, R)
    ensures PlotsIn(x, R - {o})
  {
  }

  lemma SpecApart(x: HarvesterSpec, R: Region, o: Ref<HarvesterList>)
    requires SpecIn(x, R)
    ensures SpecIn(x, R - {o})
  {
    if x.storage != null && x.storage.v.plots != null {
      PlotsApart(x.storage.v.plots.v, R, o);
    }
  }

  lemma ItemsApart(a: array<Harvester>, R: Region, o: Ref<HarvesterList>)
    requires ItemArrayIn(a, R)
    ensures ItemArrayIn(a, R - {o}) && ItemArrayView(a, R - {o}) == ItemArrayView(a, R)
  {
    forall i | 0 <= i < a.Length ensures HarvesterIn(a[..][i], R - {o}) {
      SpecApart(a[..][i].spec, R, o);
    }
    ItemsWider(a[..], R - {o}, R);
  }

  // ---------- the copy of a list ----------

  /** Go's zero value. */
  const BLANK := Harvester(
    C.Meta("", "", "", "", ""),
    HarvesterSpec(AdditionalMetadata(null, null), HarvesterConfig("", "", null, null, null, ""),
                  ExporterConfig("", null), null, "", null, null),
    false)

  /** What a reader sees in it. */
  const BLANK_CONTENTS := HarvesterContents(
    C.Meta("", "", "", "", ""),
    SpecContents(EmbeddedContents(MetadataContents(None, None), ConfigContents("", "", None, None, None, ""),
                                  ExporterContents("", None)),
                 ReferencesContents(None, None, None), ""),
    false)

  lemma BlankShowsNothing(R: Region)
    ensures HarvesterIn(BLANK, R) && HarvesterView(BLANK, R) == BLANK_CONTENTS
  {
  }

  /** The items of `src` from `i` on are still there to be copied. */
  ghost predicate Pending(src: array<Harvester>, i: nat, S: Region, wanted: seq<HarvesterContents>)
    reads src, S
  {
    && src.Length == |wanted|
    && forall j :: i <= j < |wanted| ==> HarvesterIn(src[j], S) && HarvesterView(src[j], S) == wanted[j]
  }

  /** The first `n` items of `dst` are copies, in `R`, of what was wanted. */
  ghost predicate Copied(dst: array<Harvester>, n: nat, R: Region, wanted: seq<HarvesterContents>)
    reads dst, R
  {
    && dst !in R && n <= dst.Length == |wanted|
    && forall j :: 0 <= j < n ==> HarvesterIn(dst[j], R) && HarvesterView(dst[j], R) == wanted[j]
  }

  lemma CopiedWider(dst: array<Harvester>, n: nat, R: Region, R': Region, wanted: seq<HarvesterContents>)
    requires Copied(dst, n, R, wanted) && R <= R' && dst !in R'
    ensures Copied(dst, n, R', wanted)
  {
    forall j | 0 <= j < n ensures HarvesterIn(dst[j], R') && HarvesterView(dst[j], R') == wanted[j] {
      HarvesterWider(dst[j], R, R');
    }
  }

  /** `(*out)[i]` is written: nothing is seen of that in the items copied before, nor in those still to come. */
  method Store(src: array<Harvester>, dst: array<Harvester>, i: nat, item: Harvester,
               ghost S: Region, ghost R: Region, ghost wanted: seq<HarvesterContents>)
    requires dst !in S && i < dst.Length && Pending(src, i, S, wanted) && Copied(dst, i, R, wanted)
    requires HarvesterIn(item, R) && HarvesterView(item, R) == wanted[i]
    modifies dst
    ensures Copied(dst, i + 1, R, wanted) && Pending(src, i + 1, S, wanted)
  {
    dst[i] := item;
  }

  /** `(*in)[i].DeepCopyInto(&(*out)[i])`. The two slices may be one. */
  method CopyItem(src: array<Harvester>, dst: array<Harvester>, i: nat,
                  ghost S: Region, ghost R: Region, ghost wanted: seq<HarvesterContents>)
    returns (ghost R': Region)
    requires dst !in S && i < dst.Length && Pending(src, i, S, wanted) && Copied(dst, i, R, wanted)
    modifies dst
    ensures R <= R' && fresh(R' - R)
    ensures Copied(dst, i + 1, R', wanted) && Pending(src, i + 1, S, wanted)
  {
    var item;
    ghost var R0;
    item, R0 := CopyHarvester(src[i], S);
    R' := R + R0;
    CopiedWider(dst, i, R, R', wanted);
    HarvesterWider(item, R0, R');
    Store(src, dst, i, item, S, R', wanted);
  }

  lemma AllCopied(dst: array<Harvester>, R: Region, wanted: seq<HarvesterContents>)
    requires Copied(dst, dst.Length, R, wanted)
    ensures ItemArrayIn(dst, R + {dst}) && ItemArrayView(dst, R + {dst}) == wanted
  {
    ItemsWider(dst[..], R, R + {dst});
  }

  /** As many blank items. */
  function Blanks(n: nat): (r: seq<HarvesterContents>)
    ensures |r| == n && forall i :: 0 <= i < n ==> r[i] == BLANK_CONTENTS
  {
    seq(n, i => BLANK_CONTENTS)
  }

  function Blanked(list: Option<seq<HarvesterContents>>): Option<seq<HarvesterContents>> {
    if list.None? then None else Some(Blanks(|list.value|))
  }

  /** The loop over the items. Where source and target are one list, `src` is the new array itself. */
  method CopyLoop(src: Ref<HarvesterList>, out: Ref<HarvesterList>,
                   ghost S: Region, ghost wanted: seq<HarvesterContents>)
    returns (ghost R: Region)
    requires src.v.items != null && out.v.items != null && out.v.items !in S
    requires out.v.items.Length == |wanted| && Pending(src.v.items, 0, S, wanted)
    modifies out.v.items
    ensures out.v.items in R && fresh(R - {out.v.items}) && ListIn(out.v, R) && ListView(out.v, R) == Some(wanted)
  {
    R := {};
    for i := 0 to src.v.items.Length
      invariant fresh(R) && Copied(out.v.items, i, R, wanted) && Pending(src.v.items, i, S, wanted)
    {
      R := CopyItem(src.v.items, out.v.items, i, S, R, wanted);
    }
    AllCopied(out.v.items, R, wanted);
    R := R + {out.v.items};
  }

  /** A nil or empty list, or one of blank items only. */
  predicate NothingToLose(list: Option<seq<HarvesterContents>>) {
    list.Some? ==> forall i :: 0 <= i < |list.value| ==> list.value[i] == BLANK_CONTENTS
  }

  lemma BlankedIff(list: Option<seq<HarvesterContents>>)
    ensures Blanked(list) == list <==> NothingToLose(list)
  {
    if list.Some? && NothingToLose(list) {
      assert list.value == Blanks(|list.value|);
    }
  }

  lemma ShownIsPending(src: array<Harvester>, S: Region)
    requires ItemArrayIn(src, S)
    ensures Pending(src, 0, S, ItemArrayView(src, S))
  {
    assert forall j :: 0 <= j < src.Length ==> src[..][j] == src[j];
  }

  lemma BlankIsPending(src: array<Harvester>)
    requires forall j :: 0 <= j < src.Length ==> src[j] == BLANK
    ensures Pending(src, 0, {}, Blanks(src.Length))
  {
    BlankShowsNothing({});
  }

  /** `*out = make([]ChiaHarvester, len(*in))` and the loop. Where source and target are one list, what
      there is to copy after `make` is the new array itself. */
  method CopyItems(src: Ref<HarvesterList>, out: Ref<HarvesterList>,
                   ghost S: Region, ghost shown: seq<HarvesterContents>)
    returns (ghost R: Region)
    requires out.v == src.v && src.v.items != null && src.v.items.Length == |shown|
    requires src != out ==> out !in S && ItemArrayIn(src.v.items, S) && ItemArrayView(src.v.items, S) == shown
    modifies out
    ensures fresh(R) && ListIn(out.v, R)
    ensures ListView(out.v, R) == Some(if src == out then Blanks(|shown|) else shown)
  {
    if src != out {
      ShownIsPending(src.v.items, S);
    }
    var items := new Harvester[src.v.items.Length](_ => BLANK);
    out.v := out.v.(items := items);
    if src == out {
      BlankIsPending(items);
      R := CopyLoop(src, out, {}, Blanks(|shown|));
    } else {
      R := CopyLoop(src, out, S, shown);
    }
  }

  /** `DeepCopyInto(out)`, in the code's order: the target takes the input as it stands, gets an array
      of its own, and then the items are read back through the input. Only the target changes. It then
      reaches nothing but new objects, and a reader sees in it what was to be seen in the input; unless
      it is the input itself, whose items the new array has replaced by blank ones: then what was shown
      stays exactly if there was nothing in it to lose. */
  method DeepCopyInto(src: Ref<HarvesterList>, out: Ref<HarvesterList>, ghost S: Region) returns (ghost R: Region)
    requires ListIn(src.v, S)
    modifies out
    ensures fresh(R) && ListIn(out.v, R)
    ensures ListView(out.v, R) == if src == out then Blanked(old(ListView(src.v, S))) else old(ListView(src.v, S))
    ensures ListView(out.v, R) == old(ListView(src.v, S)) <==> src != out || NothingToLose(old(ListView(src.v, S)))
  {
    ghost var shown := ListView(src.v, S);
    BlankedIff(shown);
    if src.v.items != null {
      ItemsApart(src.v.items, S, out);
    }
    R := {};
    out.v := src.v;
    if src.v.items != null {
      R := CopyItems(src, out, S - {out}, shown.value);
    }
  }

  /** The condition at work: copied onto itself, a list that holds a resource with a name loses it. */
  method SelfCopyLoses(h: Harvester) returns (list: Ref<HarvesterList>, ghost R: Region)
    requires h.meta.name != "" && HarvesterIn(h, {})
    ensures fresh(list) && ListIn(list.v, R) && ListView(list.v, R) == Some([BLANK_CONTENTS])
  {
    var items := new Harvester[1](_ => h);
    list := new Ref(HarvesterList(items));
    R := DeepCopyInto(list, list, {items});
    assert Blanks(1) == [BLANK_CONTENTS];
  }

  // ---------- separation ----------

  /** `DeepCopy`: into a new list, which is never the input. */
  method DeepCopy(src: Ref<HarvesterList>, ghost S: Region) returns (out: Ref<HarvesterList>, ghost R: Region)
    requires ListIn(src.v, S)
    ensures fresh(out) && fresh(R) && ListIn(out.v, R) && ListView(out.v, R) == ListView(src.v, S)
  {
    out := new Ref(HarvesterList(null));
    R := DeepCopyInto(src, out, S);
  }

  /** After the copy, objects that were there before may change in any way whatever, those of the
      input among them: the copy stays what the input was. */
  method CopyOutlivesInput(src: Ref<HarvesterList>, ghost S: Region, ghost touched: Region)
    returns (out: Ref<HarvesterList>, ghost R: Region)
    requires ListIn(src.v, S)
    modifies touched
    ensures fresh(R) && ListIn(out.v, R) && ListView(out.v, R) == old(ListView(src.v, S))
  {
    out, R := DeepCopy(src, S);
    modify touched;
  }

  /** And the copy may change in any way whatever without a trace in the input. */
  method InputOutlivesCopy(src: Ref<HarvesterList>, ghost S: Region) returns (out: Ref<HarvesterList>, ghost R: Region)
    requires ListIn(src.v, S)
    ensures fresh(R) && ListIn(src.v, S) && ListView(src.v, S) == old(ListView(src.v, S))
  {
    out, R := DeepCopy(src, S);
    modify R, out;
  }
}
