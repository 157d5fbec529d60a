/** The `Reconcile` methods of the node, farmer, harvester and wallet controllers, as sequential code
    against a cluster that other parties change between any two calls. Each is shown to be a run of
    the protocol: what it leaves in the history is a read, its applies in order, and one ending. */
module Reconcile {
  import opened Wrappers
  import opened Kubernetes
  import opened CustomResources
  import opened Protocol
  import opened Runs
  import Manifests
  import Common
  import Node = NodeController

  datatype Result = Result(requeue: bool, requeueAfter: nat)
  const NO_REQUEUE := Result(false, 0)

  /** What `ReconcileResource` answers; its result pointer may be nil whether or not it failed. */
  datatype Reply = Reply(result: Option<Result>, failed: bool)

  /** What the cache shows when the run asks for its resource. */
  datatype Sight = Version(version: nat) | Nothing | Unreachable
  datatype Fetched = Found(cr: CR) | NotFound | Failed

  /** All that a run does not decide itself: what the cache shows, how each call ends, and what
      everybody else does before each call. */
  datatype Surroundings = Surroundings(sight: Sight, reply: nat -> Reply, updateFails: bool,
                                       others: nat -> seq<Event>)

  /** How a run ends: it returns, or panics and takes the operator's process with it. */
  datatype Outcome = Returned(result: Result, err: bool) | Panicked

  predicate OwnEvent(e: Event, k: CRKey) {
    match e
    case Get(k', _) => k' == k
    case Apply(k') => k' == k
    case Publish(k') => k' == k
    case Fail(k') => k' == k
    case Panic(k') => k' == k
    case _ => false
  }

  /** A step of somebody else's that leaves this run alive. */
  predicate Foreign(e: Event, k: CRKey) {
    !OwnEvent(e, k) && !e.Restart? && !e.Panic?
  }

  /** The part of a history that is the run's own doing. */
  function Own(es: seq<Event>, k: CRKey): seq<Event> {
    if es == [] then []
    else
      var e := es[|es| - 1];
      Own(es[..|es| - 1], k) + (if OwnEvent(e, k) then [e] else [])
  }

  predicate AtRest(s: Cluster, k: CRKey) {
    k in s.entries ==> s.entries[k].proc.Idle?
  }

  /** The resource's run is where it was, and the versions it can read are still there. */
  predicate KeepsRun(s: Cluster, t: Cluster, k: CRKey) {
    if k in s.entries then
      && k in t.entries && t.entries[k].proc == s.entries[k].proc && t.entries[k].seen == s.entries[k].seen
      && s.entries[k].history <= t.entries[k].history
    else AtRest(t, k)
  }

  /** In the middle of a run on `cr`, with `m` objects applied. */
  predicate At(s: Cluster, k: CRKey, version: nat, cr: CR, m: nat) {
    && InRun(s, k) && s.entries[k].proc == Running(version, m) && s.entries[k].history[version] == cr
  }

  predicate NoneFailed(w: Surroundings, m: nat) {
    forall j :: 0 <= j < m ==> !w.reply(j).failed
  }

  /** The resource changed since that version was read, or is gone. */
  predicate Outdated(s: Cluster, k: CRKey, version: nat) {
    k in s.entries && (!s.entries[k].live || version != |s.entries[k].history| - 1)
  }

  /** What a run found and how many objects it applied, if it found its resource at all. */
  datatype Record = NoRun | Ran(version: nat, cr: CR, applied: nat)

  /** The API server, with the history of everything that happened. */
  class Server {
    const c: Compiler
    var state: Cluster
    ghost var log: seq<Event>

    ghost predicate Valid()
      reads this
    {
      IsTrace(c, log) && state == After(c, log)
    }

    constructor (c: Compiler)
      ensures Valid() && this.c == c && log == []
    {
      this.c := c;
      state := Init();
      log := [];
    }

    method Step(e: Event)
      requires Valid() && Enabled(c, state, e)
      modifies this
      ensures Valid() && log == old(log) + [e] && state == Next(c, old(state), e)
    {
      state := Next(c, state, e);
      assert (log + [e])[..|log|] == log;
      log := log + [e];
    }

    /** Everybody else's steps, in the given order; what is not possible when its turn comes does not happen. */
    method Interfere(k: CRKey, others: seq<Event>)
      requires Valid()
      modifies this
      ensures Valid() && Own(log, k) == Own(old(log), k) && KeepsRun(old(state), state, k)
    {
      for i := 0 to |others|
        invariant Valid() && Own(log, k) == Own(old(log), k) && KeepsRun(old(state), state, k)
      {
        if Foreign(others[i], k) && Enabled(c, state, others[i]) {
          ForeignKeepsRun(c, state, others[i], k);
          ghost var before := log;
          Step(others[i]);
          assert log[..|log| - 1] == before;
        }
      }
    }

    method OwnStep(k: CRKey, e: Event)
      requires Valid() && Enabled(c, state, e) && OwnEvent(e, k)
      modifies this
      ensures Valid() && state == Next(c, old(state), e)
      ensures Own(log, k) == Own(old(log), k) + [e]
    {
      ghost var before := log;
      Step(e);
      assert log[..|log| - 1] == before;
    }

    /** The run that started when its own history was `before` has come as far as `run` says. */
    ghost predicate Mid(k: CRKey, w: Surroundings, before: seq<Event>, run: Record)
      reads this
    {
      && Valid() && run.Ran? && w.sight == Version(run.version) && NoneFailed(w, run.applied)
      && At(state, k, run.version, run.cr, run.applied)
      && Own(log, k) == before + RunOf(k, run.version, run.applied)
    }

    ghost predicate Done(k: CRKey, w: Surroundings, before: seq<Event>, run: Record, last: Event)
      reads this
    {
      && Valid() && run.Ran? && w.sight == Version(run.version) && NoneFailed(w, run.applied) && AtRest(state, k)
      && Own(log, k) == before + RunOf(k, run.version, run.applied) + [last]
    }

    /** The run is over, and its history is that of its outcome. */
    ghost predicate Ended(k: CRKey, w: Surroundings, before: seq<Event>, out: Outcome, run: Record)
      reads this
    {
      && Valid() && AtRest(state, k) && RunShape(c, k, before, Own(log, k), w, out, run)
      && (run.NoRun? && w.sight.Version? ==> !Enabled(c, state, Get(k, w.sight.version)))
      && (run.Ran? && run.applied == |c.plan(run.cr)| && out.Returned? && out.err ==>
            w.updateFails || Outdated(state, k, run.version))
    }

    /** `r.Get` of the resource, through the cache. */
    method GetResource(k: CRKey, w: Surroundings) returns (r: Fetched, ghost run: Record)
      requires Lawful(c) && Valid() && AtRest(state, k)
      modifies this
      ensures r.Found? ==> w.sight.Version? && run == Ran(w.sight.version, r.cr, 0) && Mid(k, w, Own(old(log), k), run)
      ensures !r.Found? ==> Valid() && run == NoRun && AtRest(state, k) && Own(log, k) == Own(old(log), k)
      ensures r.Failed? <==> w.sight.Unreachable?
      ensures r.NotFound? && w.sight.Version? ==> !Enabled(c, state, Get(k, w.sight.version))
      ensures r.Found? ==> CRKeyOf(r.cr) == k
    {
      run := NoRun;
      Interfere(k, w.others(0));
      match w.sight
      case Unreachable => r := Failed;
      case Nothing => r := NotFound;
      case Version(v) =>
        if Enabled(c, state, Get(k, v)) {
          TraceInv(c, log);
          r := Found(state.entries[k].history[v]);
          run := Ran(v, r.cr, 0);
          OwnStep(k, Get(k, v));
        } else {
          r := NotFound;
        }
    }

    /** `ReconcileResource(&o, StatePresent)`: fails with no effect, or makes the object at o's key equal
        to o. `met` is the cluster that the call finds. */
    method ReconcileResource(k: CRKey, o: Object, w: Surroundings, ghost before: seq<Event>, ghost run: Record)
      returns (result: Option<Result>, err: bool, ghost run': Record, ghost met: Cluster)
      requires Mid(k, w, before, run) && run.applied < |c.plan(run.cr)| && c.plan(run.cr)[run.applied] == Some(o)
      modifies this
      ensures Reply(result, err) == w.reply(run.applied) && KeepsRun(old(state), met, k)
      ensures err ==> run' == run && Done(k, w, before, run', Fail(k))
      ensures !err ==> run' == run.(applied := run.applied + 1) && Mid(k, w, before, run')
      ensures state.objects == if err then met.objects else met.objects[KeyOf(o) := o]
    {
      var m := state.entries[k].proc.applied;
      Interfere(k, w.others(m + 1));
      met := state;
      result, err := w.reply(m).result, w.reply(m).failed;
      run' := run;
      if err {
        OwnStep(k, Fail(k));
      } else {
        OwnStep(k, Apply(k));
        run' := run.(applied := m + 1);
        assert before + RunOf(k, run.version, m) + [Apply(k)] == before + (RunOf(k, run.version, m) + [Apply(k)]);
      }
    }

    /** `r.Status().Update`: refused if the resource changed since it was read. `met` is the cluster that
        the call finds. */
    method UpdateStatus(k: CRKey, w: Surroundings, ghost before: seq<Event>, ghost run: Record)
      returns (err: bool, ghost met: Cluster)
      requires Mid(k, w, before, run) && run.applied == |c.plan(run.cr)|
      modifies this
      ensures KeepsRun(old(state), met, k) && (err <==> w.updateFails || Outdated(met, k, run.version))
      ensures Done(k, w, before, run, if err then Fail(k) else Publish(k))
      ensures err ==> w.updateFails || Outdated(state, k, run.version)
    {
      var m := state.entries[k].proc.applied;
      Interfere(k, w.others(m + 1));
      met := state;
      var e := state.entries[k];
      err := w.updateFails || !e.live || e.proc.version != |e.history| - 1;
      if err {
        OwnStep(k, Fail(k));
      } else {
        OwnStep(k, Publish(k));
      }
    }

    /** A nil dereference or a refused quantity while an object is being assembled. */
    method Die(k: CRKey, ghost w: Surroundings, ghost before: seq<Event>, ghost run: Record)
      requires Mid(k, w, before, run) && run.applied < |c.plan(run.cr)| && c.plan(run.cr)[run.applied] == None
      modifies this
      ensures Done(k, w, before, run, Panic(k))
    {
      OwnStep(k, Panic(k));
    }
  }

  lemma ForeignKeepsRun(c: Compiler, s: Cluster, e: Event, k: CRKey)
    requires Enabled(c, s, e) && Foreign(e, k)
    ensures KeepsRun(s, Next(c, s, e), k)
  {
  }

  /** What a run adds to its resource's history, by how it came out. */
  ghost predicate RunShape(c: Compiler, k: CRKey, before: seq<Event>, after: seq<Event>, w: Surroundings,
                           out: Outcome, run: Record)
  {
    match run
    case NoRun => after == before && out == Returned(NO_REQUEUE, w.sight.Unreachable?)
    case Ran(version, cr, m) =>
      && w.sight == Version(version) && NoneFailed(w, m) && m <= |c.plan(cr)|
      && after == before + RunOf(k, version, m) + [Ending(k, out)]
      && match out
         case Panicked => m < |c.plan(cr)| && c.plan(cr)[m] == None
         case Returned(result, err) =>
           if m < |c.plan(cr)| then
             err && w.reply(m).failed && result == w.reply(m).result.GetOr(NO_REQUEUE)
           else result == NO_REQUEUE && (w.updateFails ==> err)
  }

  /** The last event of a run's own. */
  function Ending(k: CRKey, out: Outcome): Event {
    match out
    case Panicked => Panic(k)
    case Returned(_, err) => if err then Fail(k) else Publish(k)
  }

  /** A run asks to be run again only with an error, and only as the failed call's own result does. */
  lemma OnlyRepliesRequeue(c: Compiler, k: CRKey, before: seq<Event>, after: seq<Event>, w: Surroundings,
                           out: Outcome, run: Record)
    requires RunShape(c, k, before, after, w, out, run) && out.Returned? && out.result != Result(false, 0)
    ensures out.err && run.Ran? && w.reply(run.applied) == Reply(Some(out.result), true)
  {
  }

  /** `o` is the object that a run on `cr` applies after `m` others. */
  predicate IsNext(c: Compiler, cr: CR, m: nat, o: Option<Object>) {
    m < |c.plan(cr)| && c.plan(cr)[m] == o
  }

  lemma NodePlan(c: Compiler, cr: CR)
    requires c == OPERATOR && KindOfCR(cr) == NodeKind
    ensures |c.plan(cr)| == 5
    ensures IsNext(c, cr, 0, Some(Manifests.AssembleBaseService(cr)))
    ensures IsNext(c, cr, 1, Some(Node.InternalService(cr)))
    ensures IsNext(c, cr, 2, Some(Node.HeadlessService(cr)))
    ensures IsNext(c, cr, 3, Some(Common.ExporterService(cr)))
    ensures IsNext(c, cr, 4, Manifests.Workload(cr))
  {
  }

  lemma DeploymentPlan(c: Compiler, cr: CR)
    requires c == OPERATOR && KindOfCR(cr) != NodeKind
    ensures |c.plan(cr)| == 3
    ensures IsNext(c, cr, 0, Some(Manifests.AssembleBaseService(cr)))
    ensures IsNext(c, cr, 1, Some(Common.ExporterService(cr)))
    ensures IsNext(c, cr, 2, Manifests.Workload(cr))
  {
  }

  method Fetch(api: Server, k: CRKey, w: Surroundings) returns (r: Fetched, ghost run: Record)
    requires api.Valid() && api.c == OPERATOR && AtRest(api.state, k)
    modifies api
    ensures r.Found? ==> w.sight.Version? && run == Ran(w.sight.version, r.cr, 0)
    ensures r.Found? ==> api.Mid(k, w, Own(old(api.log), k), run)
    ensures r.Found? ==> KindOfCR(r.cr) == k.kind
    ensures !r.Found? ==> api.Ended(k, w, Own(old(api.log), k), Returned(NO_REQUEUE, r.Failed?), run)
  {
    OperatorIsLawful();
    r, run := api.GetResource(k, w);
  }

  /** The block that every controller repeats for each object. The result pointer is made to point
      somewhere before it is dereferenced. `ended` is what `Reconcile` returns, if it returns here. */
  method ApplyOrReturn(api: Server, k: CRKey, o: Object, w: Surroundings, ghost before: seq<Event>, ghost run: Record)
    returns (ended: Option<Outcome>, ghost run': Record)
    requires api.Mid(k, w, before, run)
    requires IsNext(api.c, run.cr, run.applied, Some(o))
    modifies api
    ensures ended.None? ==> run' == run.(applied := run.applied + 1) && api.Mid(k, w, before, run')
    ensures ended.Some? ==> api.Ended(k, w, before, ended.value, run')
  {
    var res, err;
    ghost var met;
    res, err, run', met := api.ReconcileResource(k, o, w, before, run);
    if err {
      if res == None {
        res := Some(NO_REQUEUE);
      }
      return Some(Returned(res.value, true)), run';
    }
    return None, run';
  }

  method Panics(api: Server, k: CRKey, w: Surroundings, ghost before: seq<Event>, ghost run: Record)
    returns (out: Outcome)
    requires api.Mid(k, w, before, run)
    requires IsNext(api.c, run.cr, run.applied, None)
    modifies api
    ensures api.Ended(k, w, before, out, run)
  {
    api.Die(k, w, before, run);
    return Panicked;
  }

  /** The end of every `Reconcile`: set `Ready` and write the status. */
  method WriteReady(api: Server, k: CRKey, w: Surroundings, ghost before: seq<Event>, ghost run: Record)
    returns (out: Outcome)
    requires api.Mid(k, w, before, run) && run.applied == |api.c.plan(run.cr)|
    modifies api
    ensures api.Ended(k, w, before, out, run)
  {
    var err, _ := api.UpdateStatus(k, w, before, run);
    return Returned(NO_REQUEUE, err);
  }

  /** The four Services of a node. */
  method ApplyServices(api: Server, k: CRKey, node: CR, w: Surroundings, ghost before: seq<Event>, ghost run: Record)
    returns (ended: Option<Outcome>, ghost run': Record)
    requires api.Mid(k, w, before, run) && run.cr == node && run.applied == 0
    requires IsNext(api.c, node, 0, Some(Manifests.AssembleBaseService(node)))
    requires IsNext(api.c, node, 1, Some(Node.InternalService(node)))
    requires IsNext(api.c, node, 2, Some(Node.HeadlessService(node)))
    requires IsNext(api.c, node, 3, Some(Common.ExporterService(node)))
    modifies api
    ensures ended.None? ==> api.Mid(k, w, before, run') && run' == run.(applied := 4)
    ensures ended.Some? ==> api.Ended(k, w, before, ended.value, run')
  {
    ended, run' := ApplyOrReturn(api, k, Manifests.AssembleBaseService(node), w, before, run);
    if ended.Some? {
      return;
    }
    ended, run' := ApplyOrReturn(api, k, Node.InternalService(node), w, before, run');
    if ended.Some? {
      return;
    }
    ended, run' := ApplyOrReturn(api, k, Node.HeadlessService(node), w, before, run');
    if ended.Some? {
      return;
    }
    ended, run' := ApplyOrReturn(api, k, Common.ExporterService(node), w, before, run');
  }

  /** chianode_controller.go. */
  method ReconcileNode(api: Server, k: CRKey, w: Surroundings) returns (out: Outcome, ghost run: Record)
    requires api.Valid() && api.c == OPERATOR && AtRest(api.state, k) && k.kind == NodeKind
    modifies api
    ensures api.Ended(k, w, Own(old(api.log), k), out, run)
  {
    ghost var before := Own(api.log, k);
    var got;
    got, run := Fetch(api, k, w);
    if !got.Found? {
      return Returned(NO_REQUEUE, got.Failed?), run;
    }
    var node := got.cr;
    NodePlan(api.c, node);
    var ended;
    ended, run := ApplyServices(api, k, node, w, before, run);
    if ended.Some? {
      return ended.value, run;
    }
    var stateful := Manifests.AssembleWorkload(node);
    if stateful == None {
      out := Panics(api, k, w, before, run);
      return;
    }
    ended, run := ApplyOrReturn(api, k, stateful.value, w, before, run);
    if ended.Some? {
      return ended.value, run;
    }
    out := WriteReady(api, k, w, before, run);
  }

  /** chiafarmer_controller.go, chiaharvester_controller.go and chiawallet_controller.go. */
  method ReconcileDeployed(api: Server, k: CRKey, w: Surroundings) returns (out: Outcome, ghost run: Record)
    requires api.Valid() && api.c == OPERATOR && AtRest(api.state, k) && k.kind != NodeKind
    modifies api
    ensures api.Ended(k, w, Own(old(api.log), k), out, run)
  {
    ghost var before := Own(api.log, k);
    var got;
    got, run := Fetch(api, k, w);
    if !got.Found? {
      return Returned(NO_REQUEUE, got.Failed?), run;
    }
    var cr := got.cr;
    DeploymentPlan(api.c, cr);

    var ended;
    ended, run := ApplyOrReturn(api, k, Manifests.AssembleBaseService(cr), w, before, run);
    if ended.Some? {
      return ended.value, run;
    }
    ended, run := ApplyOrReturn(api, k, Common.ExporterService(cr), w, before, run);
    if ended.Some? {
      return ended.value, run;
    }
    var deploy := Manifests.AssembleWorkload(cr);
    if deploy == None {
      out := Panics(api, k, w, before, run);
      return;
    }
    ended, run := ApplyOrReturn(api, k, deploy.value, w, before, run);
    if ended.Some? {
      return ended.value, run;
    }
    out := WriteReady(api, k, w, before, run);
  }
}
