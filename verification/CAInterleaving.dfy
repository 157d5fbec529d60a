/** What a run of the ChiaCA controller leaves behind when everybody else goes on meanwhile. */
module CAInterleaving {
  import opened Wrappers
  import opened Kubernetes
  import opened CustomResources
  import opened GeneratorObjects
  import opened CAProtocol
  import opened CARuns
  import opened CASync
  import opened CAEffects
  import CAReconcile

  /** Nothing has been written at the resource's places from the `m`-th on. */
  predicate UntouchedFrom(s: Cluster, t: Cluster, k: NamespacedName, m: nat) {
    forall j :: m <= j < 4 ==> SameAt(s.objects, t.objects, Places(k)[j])
  }

  /** Since `s` the resource's controller has made no call. */
  predicate Still(s: Cluster, t: Cluster, k: NamespacedName) {
    CAReconcile.AtRest(t, k) && UntouchedFrom(s, t, k, 0)
  }

  /** Since `s` it has read version `v` and applied `m` objects; the run may be over meanwhile. */
  predicate Stood(s: Cluster, t: Cluster, k: NamespacedName, v: nat, m: nat) {
    && k in t.entries && v < |t.entries[k].history| && CAKeyOf(t.entries[k].history[v]) == k && m <= 4
    && InPlace(t.objects, t.entries[k].history[v], m) && UntouchedFrom(s, t, k, m)
    && (!t.entries[k].proc.Idle? ==> t.entries[k].proc.version == v && AppliedBy(t.entries[k].proc) == m)
  }

  predicate NoNewReady(s: Cluster, t: Cluster, k: NamespacedName) {
    k in t.entries && t.entries[k].ready ==> k in s.entries && s.entries[k].ready
  }

  /** Somebody else's step writes nowhere near. */
  lemma ForeignWrites(t: Cluster, e: Event, k: NamespacedName)
    requires Inv(t) && Enabled(t, e) && !CAReconcile.OwnEvent(e, k)
    ensures forall j :: 0 <= j < 4 ==> SameAt(t.objects, Next(t, e).objects, Places(k)[j])
  {
    if IsApply(e) {
      ApplyWrites(t, e);
      forall j | 0 <= j < 4 ensures Places(k)[j] != Places(e.k)[AppliedBy(t.entries[e.k].proc)] {
        if Places(k)[j] == Places(e.k)[AppliedBy(t.entries[e.k].proc)] {
          GeneratorKeysDisjoint(k, j, e.k, AppliedBy(t.entries[e.k].proc));
        }
      }
    } else {
      StepGrowsHistories(t, e);
    }
  }

  /** And leaves the resource's versions, its run unless it kills it, and a `Ready` that is not set. */
  lemma ForeignEntry(t: Cluster, e: Event, k: NamespacedName)
    requires Enabled(t, e) && !CAReconcile.OwnEvent(e, k)
    ensures k in t.entries ==>
              var was, now := t.entries[k], Next(t, e).entries;
              && k in now && was.history <= now[k].history && (now[k].proc.Idle? || now[k].proc == was.proc)
              && (now[k].ready ==> was.ready)
    ensures k !in t.entries && k in Next(t, e).entries ==>
              Next(t, e).entries[k].proc.Idle? && !Next(t, e).entries[k].ready
  {
  }

  lemma ForeignKeepsStill(s: Cluster, t: Cluster, e: Event, k: NamespacedName)
    requires Inv(t) && Enabled(t, e) && !CAReconcile.OwnEvent(e, k) && Still(s, t, k)
    ensures Still(s, Next(t, e), k)
  {
    ForeignWrites(t, e, k);
    ForeignEntry(t, e, k);
  }

  lemma StoodOn(s: Cluster, t: Cluster, u: Cluster, k: NamespacedName, v: nat, m: nat)
    requires Stood(s, t, k, v, m) && forall j :: 0 <= j < 4 ==> SameAt(t.objects, u.objects, Places(k)[j])
    requires k in u.entries && t.entries[k].history <= u.entries[k].history
    requires u.entries[k].proc.Idle? || u.entries[k].proc == t.entries[k].proc
    ensures Stood(s, u, k, v, m)
  {
    assert u.entries[k].history[v] == t.entries[k].history[v];
  }

  lemma ForeignKeepsStood(s: Cluster, t: Cluster, e: Event, k: NamespacedName, v: nat, m: nat)
    requires Inv(t) && Enabled(t, e) && !CAReconcile.OwnEvent(e, k) && Stood(s, t, k, v, m)
    ensures Stood(s, Next(t, e), k, v, m)
  {
    ForeignWrites(t, e, k);
    ForeignEntry(t, e, k);
    StoodOn(s, t, Next(t, e), k, v, m);
  }

  lemma ReadStarts(s: Cluster, t: Cluster, k: NamespacedName, v: nat)
    requires Inv(t) && Still(s, t, k) && Enabled(t, Get(k, v))
    ensures Stood(s, Next(t, Get(k, v)), k, v, 0)
  {
    assert EntryInv(t, k, t.entries[k]);
  }

  lemma WriteNext(s: Cluster, objects: map<Key, Object>, ca: ChiaCA, m: nat, j: nat)
    requires m < 4 && m < j < 4 && SameAt(s.objects, objects, Places(CAKeyOf(ca))[j])
    ensures SameAt(s.objects, objects[Places(CAKeyOf(ca))[m] := Generated(ca)[m]], Places(CAKeyOf(ca))[j])
  {
    if Places(CAKeyOf(ca))[j] == Places(CAKeyOf(ca))[m] {
      GeneratorKeysDisjoint(CAKeyOf(ca), j, CAKeyOf(ca), m);
    }
  }

  lemma StoodWrite(s: Cluster, t: Cluster, u: Cluster, k: NamespacedName, v: nat, m: nat)
    requires Stood(s, t, k, v, m) && m < 4
    requires u.objects == t.objects[Places(k)[m] := Generated(t.entries[k].history[v])[m]]
    requires k in u.entries && u.entries[k].history == t.entries[k].history
    requires !u.entries[k].proc.Idle? && u.entries[k].proc.version == v && AppliedBy(u.entries[k].proc) == m + 1
    ensures Stood(s, u, k, v, m + 1)
  {
    var ca := t.entries[k].history[v];
    WriteElsewhere(t.objects, ca, m, ca, m);
    forall j | m < j < 4 ensures SameAt(s.objects, u.objects, Places(k)[j]) {
      WriteNext(s, t.objects, ca, m, j);
    }
  }

  lemma ApplyGoesOn(s: Cluster, t: Cluster, e: Event, v: nat, m: nat)
    requires Inv(t) && Enabled(t, e) && IsApply(e) && Stood(s, t, e.k, v, m)
    ensures Stood(s, Next(t, e), e.k, v, m + 1)
  {
    ApplyWrites(t, e);
    StoodWrite(s, t, Next(t, e), e.k, v, m);
  }

  lemma OtherGoesOn(s: Cluster, t: Cluster, e: Event, k: NamespacedName, v: nat, m: nat)
    requires Enabled(t, e) && !IsApply(e) && !e.Get? && CAReconcile.OwnEvent(e, k) && Stood(s, t, k, v, m)
    ensures Stood(s, Next(t, e), k, v, m)
  {
    assert Next(t, e).objects == t.objects;
    assert Next(t, e).entries[k].history[v] == t.entries[k].history[v];
  }

  // ---------- over a history ----------

  /** A history goes on for a while; `more` may hold steps of anybody. */
  ghost predicate GoesOn(pre: seq<Event>, more: seq<Event>) {
    IsTrace(pre) && IsTrace(pre + more)
  }

  /** The last step of what went on. */
  lemma LastStep(pre: seq<Event>, more: seq<Event>)
    requires GoesOn(pre, more) && more != []
    ensures var front, e := more[..|more| - 1], more[|more| - 1];
            && GoesOn(pre, front) && Inv(After(pre + front)) && Enabled(After(pre + front), e)
            && After(pre + more) == Next(After(pre + front), e)
  {
    assert (pre + more)[..|pre + more| - 1] == pre + more[..|more| - 1];
    TraceInv(pre + more[..|more| - 1]);
  }

  /** How many applies there are among some calls. */
  function Applies(calls: seq<Event>): nat {
    if calls == [] then 0 else Applies(calls[..|calls| - 1]) + if IsApply(calls[|calls| - 1]) then 1 else 0
  }

  /** The calls of one run: it reads once, at its start. */
  predicate OneRun(calls: seq<Event>, k: NamespacedName, v: nat) {
    calls != [] && calls[0] == Get(k, v) && forall i :: 1 <= i < |calls| ==> !calls[i].Get?
  }

  lemma {:induction false} StaysStill(pre: seq<Event>, more: seq<Event>, k: NamespacedName)
    requires GoesOn(pre, more) && CAReconcile.AtRest(After(pre), k) && CAReconcile.Own(more, k) == []
    ensures Still(After(pre), After(pre + more), k)
    decreases |more|
  {
    if more == [] {
      assert pre + more == pre;
    } else {
      var front, e := more[..|more| - 1], more[|more| - 1];
      LastStep(pre, more);
      StaysStill(pre, front, k);
      ForeignKeepsStill(After(pre), After(pre + front), e, k);
    }
  }

  lemma OneRunFront(own: seq<Event>, e: Event, k: NamespacedName, v: nat)
    requires OneRun(own + [e], k, v)
    ensures if own == [] then e == Get(k, v) && Applies(own + [e]) == 0
            else OneRun(own, k, v) && !e.Get? && Applies(own + [e]) == Applies(own) + if IsApply(e) then 1 else 0
  {
    var calls := own + [e];
    assert calls[..|calls| - 1] == own && calls[|calls| - 1] == e;
    assert own != [] ==> own[0] == calls[0];
    assert forall i :: 1 <= i < |own| ==> own[i] == calls[i];
    if own == [] {
      assert calls == [e] && e == calls[0];
    }
  }

  lemma OwnLast(more: seq<Event>, k: NamespacedName)
    requires more != []
    ensures var front, e := more[..|more| - 1], more[|more| - 1];
            CAReconcile.Own(more, k) == if CAReconcile.OwnEvent(e, k) then CAReconcile.Own(front, k) + [e]
                                        else CAReconcile.Own(front, k)
  {
    assert CAReconcile.Own(more[..|more| - 1], k) + [] == CAReconcile.Own(more[..|more| - 1], k);
  }

  lemma CallGoesOn(s: Cluster, t: Cluster, e: Event, k: NamespacedName, v: nat, m: nat)
    requires Inv(t) && Enabled(t, e) && CAReconcile.OwnEvent(e, k) && !e.Get? && Stood(s, t, k, v, m)
    ensures Stood(s, Next(t, e), k, v, if IsApply(e) then m + 1 else m)
  {
    if IsApply(e) {
      ApplyGoesOn(s, t, e, v, m);
    } else {
      OtherGoesOn(s, t, e, k, v, m);
    }
  }

  /** However others' steps are interleaved with it: as far as a run has come, the objects it has applied
      are as assembled from what it read, and its resource's other places are as they were before it. */
  lemma {:induction false} RunLeaves(pre: seq<Event>, more: seq<Event>, k: NamespacedName, v: nat)
    requires GoesOn(pre, more) && CAReconcile.AtRest(After(pre), k) && OneRun(CAReconcile.Own(more, k), k, v)
    ensures Stood(After(pre), After(pre + more), k, v, Applies(CAReconcile.Own(more, k)))
    decreases |more|
  {
    var front, e := more[..|more| - 1], more[|more| - 1];
    LastStep(pre, more);
    OwnLast(more, k);
    var s, t, own := After(pre), After(pre + front), CAReconcile.Own(front, k);
    if !CAReconcile.OwnEvent(e, k) {
      RunLeaves(pre, front, k, v);
      ForeignKeepsStood(s, t, e, k, v, Applies(own));
    } else {
      OneRunFront(own, e, k, v);
      if own == [] {
        StaysStill(pre, front, k);
        ReadStarts(s, t, k, v);
      } else {
        RunLeaves(pre, front, k, v);
        CallGoesOn(s, t, e, k, v, Applies(own));
      }
    }
  }

  /** While the resource's controller does not publish, nothing sets its `Ready`. */
  lemma {:induction false} NoReady(pre: seq<Event>, more: seq<Event>, k: NamespacedName)
    requires GoesOn(pre, more) && forall i :: 0 <= i < |more| ==> more[i] != Publish(k)
    ensures NoNewReady(After(pre), After(pre + more), k)
    decreases |more|
  {
    if more == [] {
      assert pre + more == pre;
    } else {
      LastStep(pre, more);
      NoReady(pre, more[..|more| - 1], k);
      NoReadyStep(After(pre + more[..|more| - 1]), more[|more| - 1], k);
    }
  }

  lemma NoReadyStep(t: Cluster, e: Event, k: NamespacedName)
    requires Enabled(t, e) && e != Publish(k)
    ensures NoNewReady(t, Next(t, e), k)
  {
  }

  lemma {:induction false} OwnOf(more: seq<Event>, k: NamespacedName, e: Event)
    requires e in more && CAReconcile.OwnEvent(e, k)
    ensures e in CAReconcile.Own(more, k)
    decreases |more|
  {
    OwnLast(more, k);
    var front := more[..|more| - 1];
    if e in front {
      OwnOf(front, k, e);
    } else {
      assert e == more[|more| - 1];
    }
  }

  // ---------- the runs of the controller ----------

  /** How many objects a run with these outcomes applies. */
  function AppliesOf(o: Outcomes): nat {
    FirstFailure(o) + if Launched(o) then 1 else 0
  }

  lemma {:induction false} AppliesAppend(a: seq<Event>, b: seq<Event>)
    ensures Applies(a + b) == Applies(a) + Applies(b)
    decreases |b|
  {
    if b == [] {
      assert a + b == a;
    } else {
      AppliesAppend(a, b[..|b| - 1]);
      assert (a + b)[..|a + b| - 1] == a + b[..|b| - 1];
    }
  }

  /** Calls that neither read the resource nor apply anything. */
  predicate Quiet(calls: seq<Event>) {
    forall i :: 0 <= i < |calls| ==> !calls[i].Get? && !IsApply(calls[i])
  }

  lemma {:induction false} QuietApplies(calls: seq<Event>)
    requires Quiet(calls)
    ensures Applies(calls) == 0
    decreases |calls|
  {
    if calls != [] {
      QuietApplies(calls[..|calls| - 1]);
    }
  }

  lemma {:induction false} PollIsQuiet(k: NamespacedName, o: Outcomes, i: nat)
    ensures Quiet(PollFrom(k, o, i))
    decreases MAX_ROUNDS + 1 - i
  {
    if i <= MAX_ROUNDS && o.At(i) == Missing {
      PollIsQuiet(k, o, i + 1);
      MissingRound(k, o, i);
    }
  }

  lemma {:induction false} SetupApplies(k: NamespacedName, v: nat, n: nat)
    ensures OneRun(SetupEvents(k, v, n), k, v) && Applies(SetupEvents(k, v, n)) == n
    decreases n
  {
    var calls := SetupEvents(k, v, n);
    if n > 0 {
      SetupApplies(k, v, n - 1);
      assert calls[..|calls| - 1] == SetupEvents(k, v, n - 1);
    } else {
      assert calls[..0] == [];
    }
  }

  lemma LaunchedTail(k: NamespacedName, o: Outcomes)
    requires o.At(0) == Missing && !o.applyFails(3)
    ensures AfterSetup(k, o) == [FirstQuery(k, Missing)] + [ApplyJob(k)] + PollFrom(k, o, 1)
  {
  }

  lemma TailApplies(k: NamespacedName, o: Outcomes)
    ensures Applies(AfterSetup(k, o)) == if o.At(0) == Missing && !o.applyFails(3) then 1 else 0
    ensures forall i :: 0 <= i < |AfterSetup(k, o)| ==> !AfterSetup(k, o)[i].Get?
  {
    if o.At(0) == Missing && !o.applyFails(3) {
      var first, poll := [FirstQuery(k, Missing)], PollFrom(k, o, 1);
      LaunchedTail(k, o);
      PollIsQuiet(k, o, 1);
      QuietApplies(poll);
      QuietApplies(first);
      AppliesAppend(first, [ApplyJob(k)]);
      AppliesAppend(first + [ApplyJob(k)], poll);
      assert [ApplyJob(k)][..0] == [];
    } else {
      assert Quiet(AfterSetup(k, o));
      QuietApplies(AfterSetup(k, o));
    }
  }

  lemma OneRunWith(a: seq<Event>, b: seq<Event>, k: NamespacedName, v: nat)
    requires OneRun(a, k, v) && forall i :: 0 <= i < |b| ==> !b[i].Get?
    ensures OneRun(a + b, k, v) && Applies(a + b) == Applies(a) + Applies(b)
  {
    AppliesAppend(a, b);
  }

  lemma RunApplies(k: NamespacedName, v: nat, o: Outcomes)
    ensures OneRun(RunEvents(k, v, o), k, v) && Applies(RunEvents(k, v, o)) == AppliesOf(o)
  {
    var n := FirstFailure(o);
    SetupApplies(k, v, n);
    if n < 3 {
      var tail := [Fail(k)];
      QuietApplies(tail);
      OneRunWith(SetupEvents(k, v, n), tail, k, v);
    } else {
      TailApplies(k, o);
      OneRunWith(SetupEvents(k, v, 3), AfterSetup(k, o), k, v);
    }
  }

  /** However others' steps are interleaved with it, and however it comes out: a run leaves the objects
      that it applied as assembled from what it read, and its other places as they were before it. */
  lemma AnyRunLeaves(pre: seq<Event>, more: seq<Event>, k: NamespacedName, v: nat, o: Outcomes)
    requires GoesOn(pre, more) && CAReconcile.AtRest(After(pre), k)
    requires CAReconcile.Own(more, k) == RunEvents(k, v, o)
    ensures Stood(After(pre), After(pre + more), k, v, AppliesOf(o))
  {
    RunApplies(k, v, o);
    RunLeaves(pre, more, k, v);
  }

  /** In particular one whose `n`-th apply fails leaves exactly the `n` objects before it, and sets no `Ready`. */
  lemma FailStop(pre: seq<Event>, more: seq<Event>, k: NamespacedName, v: nat, o: Outcomes, n: nat)
    requires GoesOn(pre, more) && CAReconcile.AtRest(After(pre), k)
    requires CAReconcile.Own(more, k) == RunEvents(k, v, o) && FailsAt(o, n)
    ensures Stood(After(pre), After(pre + more), k, v, n) && NoNewReady(After(pre), After(pre + more), k)
  {
    AnyRunLeaves(pre, more, k, v, o);
    FailedRunPublishesNot(k, v, o, n);
    forall i | 0 <= i < |more| ensures more[i] != Publish(k) {
      if more[i] == Publish(k) {
        OwnOf(more, k, more[i]);
      }
    }
    NoReady(pre, more, k);
  }

  lemma {:induction false} SetupPublishesNot(k: NamespacedName, v: nat, n: nat)
    ensures Publish(k) !in SetupEvents(k, v, n)
    decreases n
  {
    if n > 0 {
      SetupPublishesNot(k, v, n - 1);
    }
  }

  lemma FailedRunPublishesNot(k: NamespacedName, v: nat, o: Outcomes, n: nat)
    requires FailsAt(o, n)
    ensures Publish(k) !in RunEvents(k, v, o)
  {
    SetupPublishesNot(k, v, n);
    if n == 3 {
      JobFailUnrolled(k, v, o);
    }
  }
}
