/** What a failing run leaves behind when everybody else goes on meanwhile. */
module Interleaving {
  import opened Wrappers
  import opened Kubernetes
  import opened CustomResources
  import opened Protocol
  import opened Runs
  import Reconcile

  /** Nothing has been written at the resource's places from the `m`-th on. */
  ghost predicate UntouchedFrom(c: Compiler, s: Cluster, t: Cluster, k: CRKey, m: nat) {
    forall j :: m <= j < |c.keys(k)| ==> SameAt(s.objects, t.objects, c.keys(k)[j])
  }

  ghost predicate NoNewReady(s: Cluster, t: Cluster, k: CRKey) {
    k in t.entries && t.entries[k].ready ==> k in s.entries && s.entries[k].ready
  }

  /** Since `s` the resource's controller has made no call. */
  ghost predicate Still(c: Compiler, s: Cluster, t: Cluster, k: CRKey) {
    Reconcile.AtRest(t, k) && UntouchedFrom(c, s, t, k, 0) && NoNewReady(s, t, k)
  }

  /** Since `s` it has read version `v` and applied `m` objects; the run may have died meanwhile. */
  ghost predicate Stood(c: Compiler, s: Cluster, t: Cluster, k: CRKey, v: nat, m: nat) {
    && k in t.entries && v < |t.entries[k].history| && CRKeyOf(t.entries[k].history[v]) == k
    && (t.entries[k].proc.Idle? || t.entries[k].proc == Running(v, m))
    && Applied(c, t.objects, t.entries[k].history[v], m) && UntouchedFrom(c, s, t, k, m) && NoNewReady(s, t, k)
  }

  /** Somebody else's step writes nowhere near. */
  lemma ForeignWrites(c: Compiler, t: Cluster, e: Event, k: CRKey)
    requires Lawful(c) && Inv(c, t) && Enabled(c, t, e) && !Reconcile.OwnEvent(e, k)
    ensures forall j :: 0 <= j < |c.keys(k)| ==> SameAt(t.objects, Next(c, t, e).objects, c.keys(k)[j])
  {
    if e.Apply? {
      var r := t.entries[e.k];
      assert EntryInv(c, t.objects, e.k, r);
      var cr, n := r.history[r.proc.version], r.proc.applied;
      assert KeyOf(c.plan(cr)[n].value) == c.keys(e.k)[n];
    }
  }

  /** And leaves the resource's versions, its run unless it kills it, and a `Ready` that is not set. */
  lemma ForeignEntry(c: Compiler, t: Cluster, e: Event, k: CRKey)
    requires Enabled(c, t, e) && !Reconcile.OwnEvent(e, k) && k in t.entries
    ensures var was, now := t.entries[k], Next(c, t, e).entries;
            && k in now && was.history <= now[k].history && (now[k].proc.Idle? || now[k].proc == was.proc)
            && (now[k].ready ==> was.ready)
  {
  }

  lemma ForeignKeepsStill(c: Compiler, s: Cluster, t: Cluster, e: Event, k: CRKey)
    requires Lawful(c) && Inv(c, t) && Enabled(c, t, e) && !Reconcile.OwnEvent(e, k) && Still(c, s, t, k)
    ensures Still(c, s, Next(c, t, e), k)
  {
    ForeignWrites(c, t, e, k);
    if k in t.entries {
      ForeignEntry(c, t, e, k);
    }
  }

  lemma ForeignKeepsStood(c: Compiler, s: Cluster, t: Cluster, e: Event, k: CRKey, v: nat, m: nat)
    requires Lawful(c) && Inv(c, t) && Enabled(c, t, e) && !Reconcile.OwnEvent(e, k) && Stood(c, s, t, k, v, m)
    ensures Stood(c, s, Next(c, t, e), k, v, m)
  {
    ForeignWrites(c, t, e, k);
    ForeignEntry(c, t, e, k);
    assert Next(c, t, e).entries[k].history[v] == t.entries[k].history[v];
  }

  lemma ReadStarts(c: Compiler, s: Cluster, t: Cluster, k: CRKey, v: nat)
    requires Inv(c, t) && Still(c, s, t, k) && Enabled(c, t, Get(k, v))
    ensures Stood(c, s, Next(c, t, Get(k, v)), k, v, 0)
  {
    assert EntryInv(c, t.objects, k, t.entries[k]);
  }

  lemma ApplyGoesOn(c: Compiler, s: Cluster, t: Cluster, k: CRKey, v: nat, m: nat)
    requires Lawful(c) && Inv(c, t) && Stood(c, s, t, k, v, m) && Enabled(c, t, Apply(k))
    ensures Stood(c, s, Next(c, t, Apply(k)), k, v, m + 1)
  {
    var cr := t.entries[k].history[v];
    WriteElsewhere(c, t.objects, k, m, c.plan(cr)[m].value, cr, m);
  }

  /** A history goes on for a while; `more` may hold steps of anybody. */
  ghost predicate GoesOn(c: Compiler, pre: seq<Event>, more: seq<Event>) {
    IsTrace(c, pre) && IsTrace(c, pre + more)
  }

  /** The last step of what went on. */
  lemma LastStep(c: Compiler, pre: seq<Event>, more: seq<Event>)
    requires Lawful(c) && GoesOn(c, pre, more) && more != []
    ensures var front, e := more[..|more| - 1], more[|more| - 1];
            && GoesOn(c, pre, front) && Inv(c, After(c, pre + front)) && Enabled(c, After(c, pre + front), e)
            && After(c, pre + more) == Next(c, After(c, pre + front), e)
  {
    assert (pre + more)[..|pre + more| - 1] == pre + more[..|more| - 1];
    TraceInv(c, pre + more[..|more| - 1]);
  }

  lemma {:induction false} StaysStill(c: Compiler, pre: seq<Event>, more: seq<Event>, k: CRKey)
    requires Lawful(c) && GoesOn(c, pre, more) && Reconcile.AtRest(After(c, pre), k) && Reconcile.Own(more, k) == []
    ensures Still(c, After(c, pre), After(c, pre + more), k)
    decreases |more|
  {
    if more == [] {
      assert pre + more == pre;
    } else {
      var front, e := more[..|more| - 1], more[|more| - 1];
      LastStep(c, pre, more);
      StaysStill(c, pre, front, k);
      ForeignKeepsStill(c, After(c, pre), After(c, pre + front), e, k);
    }
  }

  lemma {:induction false} ComesTo(c: Compiler, pre: seq<Event>, more: seq<Event>, k: CRKey, v: nat, m: nat)
    requires Lawful(c) && GoesOn(c, pre, more) && Reconcile.AtRest(After(c, pre), k)
    requires Reconcile.Own(more, k) == RunOf(k, v, m)
    ensures Stood(c, After(c, pre), After(c, pre + more), k, v, m)
    decreases |more|
  {
    var front, e := more[..|more| - 1], more[|more| - 1];
    LastStep(c, pre, more);
    var s, t := After(c, pre), After(c, pre + front);
    if !Reconcile.OwnEvent(e, k) {
      ComesTo(c, pre, front, k, v, m);
      ForeignKeepsStood(c, s, t, e, k, v, m);
    } else {
      LastOwn(Reconcile.Own(front, k), e, k, v, m);
      if m == 0 {
        StaysStill(c, pre, front, k);
      } else {
        ComesTo(c, pre, front, k, v, m - 1);
      }
      OwnGoesOn(c, s, t, e, k, v, m);
    }
  }

  lemma OwnGoesOn(c: Compiler, s: Cluster, t: Cluster, e: Event, k: CRKey, v: nat, m: nat)
    requires Lawful(c) && Inv(c, t) && Enabled(c, t, e)
    requires if m == 0 then Still(c, s, t, k) && e == Get(k, v) else Stood(c, s, t, k, v, m - 1) && e == Apply(k)
    ensures Stood(c, s, Next(c, t, e), k, v, m)
  {
    if m == 0 {
      ReadStarts(c, s, t, k, v);
    } else {
      ApplyGoesOn(c, s, t, k, v, m - 1);
    }
  }

  lemma LastOwn(own: seq<Event>, e: Event, k: CRKey, v: nat, m: nat)
    requires own + [e] == RunOf(k, v, m)
    ensures if m == 0 then own == [] && e == Get(k, v) else own == RunOf(k, v, m - 1) && e == Apply(k)
  {
    var run := own + [e];
    assert own == run[..|run| - 1] && e == run[|run| - 1];
  }

  /** However others' steps are interleaved with it: a run that fails after `m` applies leaves those `m`
      objects as assembled from what it read, its resource's other places as they were before it, and
      sets no `Ready`. */
  lemma {:induction false} FailStop(c: Compiler, pre: seq<Event>, more: seq<Event>, k: CRKey, v: nat, m: nat)
    requires Lawful(c) && GoesOn(c, pre, more) && Reconcile.AtRest(After(c, pre), k)
    requires Reconcile.Own(more, k) == RunOf(k, v, m) + [Fail(k)]
    ensures Stood(c, After(c, pre), After(c, pre + more), k, v, m)
    decreases |more|
  {
    var front, e := more[..|more| - 1], more[|more| - 1];
    LastStep(c, pre, more);
    var s, t := After(c, pre), After(c, pre + front);
    if !Reconcile.OwnEvent(e, k) {
      FailStop(c, pre, front, k, v, m);
      ForeignKeepsStood(c, s, t, e, k, v, m);
    } else {
      var run := RunOf(k, v, m) + [Fail(k)];
      assert Reconcile.Own(front, k) == run[..|run| - 1] == RunOf(k, v, m) && e == run[|run| - 1] == Fail(k);
      ComesTo(c, pre, front, k, v, m);
    }
  }
}
