/** `Reconcile` of the ChiaCA controller (chiaca_controller.go), as sequential code against a cluster
    that other parties change between any two calls. The calls it leaves in the history are those of
    a run, `RunEvents`, for the outcomes it met. */
module CAReconcile {
  import opened Wrappers
  import opened Kubernetes
  import opened CustomResources
  import opened GeneratorObjects
  import opened CAProtocol
  import opened CARuns
  import Reconcile

  type Result = Reconcile.Result
  type Reply = Reconcile.Reply
  type Sight = Reconcile.Sight
  const NO_REQUEUE := Reconcile.NO_REQUEUE

  datatype Fetched = Fetched(run: Run) | NotFound | Failed

  /** All that a run does not decide itself: what the cache shows when it is asked for the resource and,
      in each round, for the Secret; how each of the four applies and the update end; and what everybody
      else does before each call. */
  datatype Surroundings = Surroundings(sight: Sight, reply: nat -> Reply, answer: nat -> Answer, updateFails: bool,
                                       others: nat -> seq<Event>)

  predicate OwnEvent(e: Event, k: NamespacedName) {
    match e
    case Get(k', _) => k' == k
    case ApplySetup(k') => k' == k
    case FirstQuery(k', _) => k' == k
    case ApplyJob(k') => k' == k
    case PollQuery(k', _) => k' == k
    case Sleep(k') => k' == k
    case Publish(k') => k' == k
    case Fail(k') => k' == k
    case _ => false
  }

  /** A step of somebody else's that leaves this run alive. */
  predicate Foreign(e: Event, k: NamespacedName) {
    !OwnEvent(e, k) && !e.Restart?
  }

  function Own(es: seq<Event>, k: NamespacedName): seq<Event> {
    if es == [] then []
    else Own(es[..|es| - 1], k) + if OwnEvent(es[|es| - 1], k) then [es[|es| - 1]] else []
  }

  predicate AtRest(s: Cluster, k: NamespacedName) {
    k in s.entries ==> s.entries[k].proc.Idle?
  }

  /** The resource's run is where it was, and the versions it can read are still there. */
  predicate KeepsRun(s: Cluster, t: Cluster, k: NamespacedName) {
    if k in s.entries then
      && k in t.entries && t.entries[k].proc == s.entries[k].proc && t.entries[k].seen == s.entries[k].seen
      && s.entries[k].history <= t.entries[k].history
    else AtRest(t, k)
  }

  lemma ForeignKeepsRun(s: Cluster, e: Event, k: NamespacedName)
    requires Enabled(s, e) && Foreign(e, k)
    ensures KeepsRun(s, Next(s, e), k)
  {
  }

  /** What a run is on: its resource, the version of it that it read, and what that says. */
  datatype Run = Run(k: NamespacedName, version: nat, ca: ChiaCA)

  /** In the middle of the run. */
  predicate At(s: Cluster, r: Run, p: Proc) {
    InRun(s, r.k) && s.entries[r.k].proc == p && p.version == r.version && CAProtocol.Subject(s, r.k) == r.ca
  }

  /** Where the run stands before its `j`-th apply, counted from 0, and after it. */
  function BeforeApply(r: Run, j: nat): Proc {
    if j < 3 then Setup(r.version, j) else Launching(r.version)
  }

  function AfterApply(r: Run, j: nat): Proc {
    if j < 3 then Setup(r.version, j + 1) else Polling(r.version, 1)
  }

  /** What it applies. */
  function ToApply(r: Run, j: nat): Object {
    if j < 3 then SetupObjects(r.ca)[j] else AssembleJobSpec(r.ca)
  }

  function ApplyEvent(r: Run, j: nat): Event {
    if j < 3 then ApplySetup(r.k) else ApplyJob(r.k)
  }

  lemma ApplyLeads(s: Cluster, r: Run, j: nat)
    requires At(s, r, BeforeApply(r, j))
    ensures Enabled(s, ApplyEvent(r, j)) && At(Next(s, ApplyEvent(r, j)), r, AfterApply(r, j))
    ensures Next(s, ApplyEvent(r, j)).objects == s.objects[KeyOf(ToApply(r, j)) := ToApply(r, j)]
  {
  }

  /** The resource changed since version `v` was read, or is gone. */
  predicate Outdated(s: Cluster, k: NamespacedName, v: nat) {
    k in s.entries && (!s.entries[k].live || v != |s.entries[k].history| - 1)
  }

  /** Where the run stands before the query of a round, and after it; round 0 is the one before the Job. */
  function BeforeQuery(r: Run, round: nat): Proc {
    if round == 0 then Setup(r.version, 3) else Polling(r.version, round)
  }

  function AfterQuery(r: Run, round: nat, a: Answer): Proc {
    match a
    case Broken => Idle
    case Found => if round == 0 then Idle else Publishing(r.version)
    case Missing => if round == 0 then Launching(r.version) else Pausing(r.version, round)
  }

  function QueryEvent(r: Run, round: nat, a: Answer): Event {
    if round == 0 then FirstQuery(r.k, a) else PollQuery(r.k, a)
  }

  /** The API server, with the history of everything that happened. */
  class Server {
    var state: Cluster
    ghost var log: seq<Event>

    ghost predicate Valid()
      reads this
    {
      IsTrace(log) && state == After(log)
    }

    constructor ()
      ensures Valid() && log == []
    {
      state := Init();
      log := [];
    }

    method Step(e: Event)
      requires Valid() && Enabled(state, e)
      modifies this
      ensures Valid() && log == old(log) + [e] && state == Next(old(state), e)
    {
      state := Next(state, e);
      assert (log + [e])[..|log|] == log;
      log := log + [e];
    }

    method Interfere(k: NamespacedName, others: seq<Event>)
      requires Valid()
      modifies this
      ensures Valid() && Own(log, k) == Own(old(log), k) && KeepsRun(old(state), state, k)
    {
      for i := 0 to |others|
        invariant Valid() && Own(log, k) == Own(old(log), k) && KeepsRun(old(state), state, k)
      {
        if Foreign(others[i], k) && Enabled(state, others[i]) {
          ForeignKeepsRun(state, others[i], k);
          ghost var before := log;
          Step(others[i]);
          assert log[..|log| - 1] == before;
        }
      }
    }

    method OwnStep(k: NamespacedName, e: Event)
      requires Valid() && Enabled(state, e) && OwnEvent(e, k)
      modifies this
      ensures Valid() && state == Next(old(state), e)
      ensures Own(log, k) == Own(old(log), k) + [e]
    {
      ghost var before := log;
      Step(e);
      assert log[..|log| - 1] == before;
    }

    /** The run stands at `p`, and its resource's history is `own` so far. */
    ghost predicate Mid(r: Run, p: Proc, own: seq<Event>)
      reads this
    {
      Valid() && At(state, r, p) && Own(log, r.k) == own
    }

    ghost predicate Ended(k: NamespacedName, own: seq<Event>)
      reads this
    {
      Valid() && AtRest(state, k) && Own(log, k) == own
    }

    /** After `n` rounds in vain the run stands at the next, or has ended. */
    ghost predicate Polled(r: Run, n: nat, own: seq<Event>)
      reads this
    {
      if n < MAX_ROUNDS then Mid(r, Polling(r.version, n + 1), own) else Ended(r.k, own)
    }

    method GetResource(k: NamespacedName, w: Surroundings) returns (got: Fetched)
      requires Valid() && AtRest(state, k)
      modifies this
      ensures got.Fetched? ==>
                && got.run.k == k == CAKeyOf(got.run.ca) && w.sight == Reconcile.Version(got.run.version)
                && Mid(got.run, BeforeApply(got.run, 0), Own(old(log), k) + [Get(k, got.run.version)])
      ensures !got.Fetched? ==> Ended(k, Own(old(log), k))
      ensures got.Failed? <==> w.sight.Unreachable?
      ensures got.NotFound? && w.sight.Version? ==> !Enabled(state, Get(k, w.sight.version))
    {
      Interfere(k, w.others(0));
      match w.sight
      case Unreachable => got := Failed;
      case Nothing => got := NotFound;
      case Version(v) =>
        if Enabled(state, Get(k, v)) {
          TraceInv(log);
          got := Fetched(Run(k, v, state.entries[k].history[v]));
          OwnStep(k, Get(k, v));
        } else {
          got := NotFound;
        }
    }

    /** `ReconcileResource(&o, StatePresent)`: fails with no effect, or makes the object at o's key equal
        to o. `met` is the cluster that the call finds. */
    method ReconcileResource(r: Run, j: nat, o: Object, w: Surroundings, ghost own: seq<Event>)
      returns (result: Option<Result>, err: bool, ghost met: Cluster)
      requires Mid(r, BeforeApply(r, j), own) && o == ToApply(r, j)
      modifies this
      ensures Reconcile.Reply(result, err) == w.reply(j) && KeepsRun(old(state), met, r.k)
      ensures if err then Ended(r.k, own + [Fail(r.k)]) else Mid(r, AfterApply(r, j), own + [ApplyEvent(r, j)])
      ensures state.objects == if err then met.objects else met.objects[KeyOf(o) := o]
    {
      Interfere(r.k, w.others(j + 1));
      met := state;
      result, err := w.reply(j).result, w.reply(j).failed;
      ApplyLeads(state, r, j);
      OwnStep(r.k, if err then Fail(r.k) else ApplyEvent(r, j));
    }

    /** `getCASecret`. The cache cannot show a Secret that never was. */
    method GetCASecret(r: Run, round: nat, w: Surroundings, ghost own: seq<Event>)
      returns (notFound: bool, err: bool, ghost a: Answer)
      requires Mid(r, BeforeQuery(r, round), own)
      modifies this
      ensures notFound == a.Missing? && err == a.Broken?
      ensures a == if w.answer(round).Found? && SecretOf(r.ca) !in state.ever then Missing else w.answer(round)
      ensures if AfterQuery(r, round, a).Idle? then Ended(r.k, own + [QueryEvent(r, round, a)])
              else Mid(r, AfterQuery(r, round, a), own + [QueryEvent(r, round, a)])
    {
      Interfere(r.k, w.others(5 + 2 * round));
      var shown := w.answer(round);
      var answer := if shown.Found? && SecretOf(r.ca) !in state.ever then Missing else shown;
      notFound, err, a := answer.Missing?, answer.Broken?, answer;
      OwnStep(r.k, QueryEvent(r, round, answer));
    }

    /** `time.Sleep`. */
    method Nap(r: Run, round: nat, w: Surroundings, ghost own: seq<Event>)
      requires Mid(r, Pausing(r.version, round), own)
      modifies this
      ensures Polled(r, round, own + [Sleep(r.k)])
    {
      Interfere(r.k, w.others(6 + 2 * round));
      OwnStep(r.k, Sleep(r.k));
    }

    /** `r.Status().Update`: refused if the resource changed since it was read. `met` is the cluster that
        the call finds. */
    method UpdateStatus(r: Run, round: nat, w: Surroundings, ghost own: seq<Event>)
      returns (err: bool, ghost met: Cluster)
      requires Mid(r, Publishing(r.version), own)
      modifies this
      ensures KeepsRun(old(state), met, r.k) && (err <==> w.updateFails || Outdated(met, r.k, r.version))
      ensures Ended(r.k, own + [if err then Fail(r.k) else Publish(r.k)])
      ensures err ==> w.updateFails || Outdated(state, r.k, r.version)
    {
      Interfere(r.k, w.others(6 + 2 * round));
      met := state;
      var e := state.entries[r.k];
      err := w.updateFails || !e.live || e.proc.version != |e.history| - 1;
      OwnStep(r.k, if err then Fail(r.k) else Publish(r.k));
    }
  }

  // ---------- what a run met ----------

  /** `i` rounds in vain, and then `a`. */
  function Heard(i: nat, a: Answer): (r: seq<Answer>)
    ensures |r| == i + 1 && r[i] == a && forall j :: 0 <= j < i ==> r[j] == Missing
  {
    if i == 0 then [a] else [Missing] + Heard(i - 1, a)
  }

  function Met(w: Surroundings, answers: seq<Answer>, updateFails: bool): Outcomes {
    Outcomes((j: nat) => w.reply(j).failed, answers, updateFails)
  }

  /** The run gets as far as the query of round `i`. */
  predicate Asks(o: Outcomes, i: nat) {
    FirstFailure(o) == 3 && (i == 0 || (Launched(o) && i <= MAX_ROUNDS && MissingUntil(o, 1, i)))
  }

  /** What a run met is what its surroundings said, but for a Secret that could not be shown. */
  ghost predicate Agrees(w: Surroundings, o: Outcomes) {
    && (forall j :: o.applyFails(j) == w.reply(j).failed)
    && (forall i: nat :: Asks(o, i) ==> o.At(i) == w.answer(i) || (o.At(i) == Missing && w.answer(i) == Answer.Found))
  }

  predicate Unbroken(w: Surroundings, n: nat) {
    forall j :: 0 <= j < n ==> w.answer(j) != Broken
  }

  predicate Erred(e: Event) {
    e.Fail? || (e.FirstQuery? && e.answer == Broken) || (e.PollQuery? && e.answer == Broken)
  }

  predicate LastErred(es: seq<Event>) {
    es != [] && Erred(es[|es| - 1])
  }

  predicate LastPublished(es: seq<Event>) {
    es != [] && es[|es| - 1].Publish?
  }

  function ResultOf(w: Surroundings, o: Outcomes): Result {
    if FirstFailure(o) < 3 then w.reply(FirstFailure(o)).result.GetOr(NO_REQUEUE)
    else if o.At(0) == Missing && o.applyFails(3) then w.reply(3).result.GetOr(NO_REQUEUE)
    else NO_REQUEUE
  }

  function CallsOf(r: Run, o: Outcomes): seq<Event> {
    RunEvents(r.k, r.version, o)
  }

  /** The status update goes through unless it fails, or the resource has changed meanwhile. */
  ghost predicate UpdateIsFair(s: Cluster, r: Run, w: Surroundings, o: Outcomes) {
    && (o.updateFails ==> w.updateFails || Outdated(s, r.k, r.version))
    && (w.updateFails ==> !LastPublished(CallsOf(r, o)))
  }

  /** What the run that started when its own history was `before` did, and what it returns. */
  ghost predicate Finished(api: Server, r: Run, before: seq<Event>, w: Surroundings, o: Outcomes,
                           result: Result, err: bool)
    reads api
  {
    && api.Ended(r.k, before + CallsOf(r, o)) && Agrees(w, o) && UpdateIsFair(api.state, r, w, o)
    && result == ResultOf(w, o) && (err <==> LastErred(CallsOf(r, o)))
  }

  /** The block that the controller repeats for each object: `ended` is the result it returns with an
      error, if it returns here. The result pointer is made to point somewhere before it is dereferenced. */
  method ApplyOrReturn(api: Server, r: Run, j: nat, o: Object, w: Surroundings, ghost own: seq<Event>)
    returns (ended: Option<Result>)
    requires api.Mid(r, BeforeApply(r, j), own) && o == ToApply(r, j)
    modifies api
    ensures ended.Some? <==> w.reply(j).failed
    ensures ended.Some? ==> api.Ended(r.k, own + [Fail(r.k)]) && ended.value == w.reply(j).result.GetOr(NO_REQUEUE)
    ensures ended.None? ==> api.Mid(r, AfterApply(r, j), own + [ApplyEvent(r, j)])
  {
    var res, err, _ := api.ReconcileResource(r, j, o, w, own);
    if err {
      if res == None {
        res := Some(NO_REQUEUE);
      }
      return Some(res.value);
    }
    return None;
  }

  lemma AssocOne(a: seq<Event>, b: seq<Event>, e: Event)
    ensures a + b + [e] == a + (b + [e])
  {
  }

  /** The calls of the run until `n` of the RBAC objects are applied. */
  function SetupCalls(r: Run, n: nat): seq<Event> {
    SetupEvents(r.k, r.version, n)
  }

  /** The calls of the run until `n` rounds have been in vain. */
  function VainCalls(r: Run, n: nat): seq<Event> {
    InVain(r.k, r.version, n)
  }

  /** The run ends with an apply that fails. */
  lemma EndsAtApply(api: Server, r: Run, before: seq<Event>, w: Surroundings, n: nat)
    requires n < 3 && FirstFailure(Met(w, [], false)) == n
    requires api.Ended(r.k, before + SetupCalls(r, n) + [Fail(r.k)])
    ensures Finished(api, r, before, w, Met(w, [], false), w.reply(n).result.GetOr(NO_REQUEUE), true)
  {
    AssocOne(before, SetupCalls(r, n), Fail(r.k));
  }

  /** The first three calls. */
  method ApplyRbac(api: Server, r: Run, w: Surroundings, ghost before: seq<Event>)
    returns (ended: Option<Result>)
    requires api.Mid(r, BeforeApply(r, 0), before + SetupCalls(r, 0))
    modifies api
    ensures ended.Some? ==> Finished(api, r, before, w, Met(w, [], false), ended.value, true)
    ensures ended.None? ==> api.Mid(r, Setup(r.version, 3), before + SetupCalls(r, 3))
    ensures ended.None? <==> FirstFailure(Met(w, [], false)) == 3
  {
    ended := ApplyOrReturn(api, r, 0, AssembleServiceAccount(r.ca), w, before + SetupCalls(r, 0));
    if ended.Some? {
      EndsAtApply(api, r, before, w, 0);
      return;
    }
    AssocOne(before, SetupCalls(r, 0), ApplySetup(r.k));
    ended := ApplyOrReturn(api, r, 1, AssembleRole(r.ca), w, before + SetupCalls(r, 1));
    if ended.Some? {
      EndsAtApply(api, r, before, w, 1);
      return;
    }
    AssocOne(before, SetupCalls(r, 1), ApplySetup(r.k));
    ended := ApplyOrReturn(api, r, 2, AssembleRoleBinding(r.ca), w, before + SetupCalls(r, 2));
    if ended.Some? {
      EndsAtApply(api, r, before, w, 2);
      return;
    }
    AssocOne(before, SetupCalls(r, 2), ApplySetup(r.k));
  }

  lemma NextRound(r: Run, before: seq<Event>, i: nat)
    requires i >= 1
    ensures before + VainCalls(r, i - 1) + [PollQuery(r.k, Missing)] + [Sleep(r.k)] == before + VainCalls(r, i)
  {
  }

  /** The calls of the round that leaves the loop. */
  function LastCalls(k: NamespacedName, a: Answer, fails: bool): seq<Event> {
    if a == Answer.Found then [PollQuery(k, a), if fails then Fail(k) else Publish(k)] else [PollQuery(k, a)]
  }

  lemma RunEndsInRound(r: Run, o: Outcomes, i: nat)
    requires Launched(o) && 1 <= i <= MAX_ROUNDS && MissingUntil(o, 1, i) && o.At(i) != Missing
    ensures CallsOf(r, o) == VainCalls(r, i - 1) + LastCalls(r.k, o.At(i), o.updateFails)
  {
    RunUnroll(r.k, r.version, o, i);
    assert PollFrom(r.k, o, i) == LastCalls(r.k, o.At(i), o.updateFails);
  }

  lemma MetInRound(w: Surroundings, a: Answer, fails: bool, i: nat)
    requires Launched(Met(w, [], false)) && 1 <= i <= MAX_ROUNDS && a != Missing && w.answer(i) == a && Unbroken(w, i)
    ensures var o := Met(w, Heard(i, a), fails);
            Launched(o) && MissingUntil(o, 1, i) && o.At(i) == a && Agrees(w, o) && ResultOf(w, o) == NO_REQUEUE
  {
  }

  /** The loop is left in round `i`, for what the query or the update said. */
  lemma EndsInRound(api: Server, r: Run, before: seq<Event>, w: Surroundings, i: nat, a: Answer, fails: bool)
    requires Launched(Met(w, [], false)) && 1 <= i <= MAX_ROUNDS && a != Missing && w.answer(i) == a && Unbroken(w, i)
    requires api.Ended(r.k, before + VainCalls(r, i - 1) + LastCalls(r.k, a, fails))
    requires fails ==> a == Answer.Found && (w.updateFails || Outdated(api.state, r.k, r.version))
    requires a == Answer.Found && w.updateFails ==> fails
    ensures Finished(api, r, before, w, Met(w, Heard(i, a), fails), NO_REQUEUE, a == Broken || fails)
  {
    var o := Met(w, Heard(i, a), fails);
    MetInRound(w, a, fails, i);
    RunEndsInRound(r, o, i);
    var last := LastCalls(r.k, a, fails);
    CARuns.Assoc(before, VainCalls(r, i - 1), last);
    assert CallsOf(r, o)[|CallsOf(r, o)| - 1] == last[|last| - 1];
  }

  /** The run is about to begin round `i`, or has ended where there is none. */
  ghost predicate BeforeRound(api: Server, r: Run, i: nat, w: Surroundings, before: seq<Event>)
    reads api
  {
    i >= 1 && api.Polled(r, i - 1, before + VainCalls(r, i - 1)) && Unbroken(w, i)
  }

  lemma EndsInVain(api: Server, r: Run, before: seq<Event>, w: Surroundings)
    requires Launched(Met(w, [], false)) && BeforeRound(api, r, MAX_ROUNDS + 1, w, before)
    ensures Finished(api, r, before, w, Met(w, [], false), NO_REQUEUE, false)
  {
    RunUnroll(r.k, r.version, Met(w, [], false), MAX_ROUNDS + 1);
  }

  /** The Secret has turned up in round `i`. */
  method ReportReady(api: Server, r: Run, i: nat, w: Surroundings, ghost before: seq<Event>)
    returns (err: bool, ghost o: Outcomes)
    requires 1 <= i <= MAX_ROUNDS && Launched(Met(w, [], false)) && Unbroken(w, i) && w.answer(i) == Answer.Found
    requires api.Mid(r, Publishing(r.version), before + VainCalls(r, i - 1) + [PollQuery(r.k, Answer.Found)])
    modifies api
    ensures Finished(api, r, before, w, o, NO_REQUEUE, err)
  {
    ghost var own, found := before + VainCalls(r, i - 1), [PollQuery(r.k, Answer.Found)];
    ghost var met;
    err, met := api.UpdateStatus(r, i, w, own + found);
    assert own + found + [if err then Fail(r.k) else Publish(r.k)] == own + LastCalls(r.k, Answer.Found, err);
    o := Met(w, Heard(i, Answer.Found), err);
    EndsInRound(api, r, before, w, i, Answer.Found, err);
  }

  /** Round `i` of the loop; `done` if it leaves the loop. */
  method PollRound(api: Server, r: Run, i: nat, w: Surroundings, ghost before: seq<Event>)
    returns (done: bool, err: bool, ghost o: Outcomes)
    requires i <= MAX_ROUNDS && Launched(Met(w, [], false)) && BeforeRound(api, r, i, w, before)
    modifies api
    ensures done ==> Finished(api, r, before, w, o, NO_REQUEUE, err)
    ensures !done ==> BeforeRound(api, r, i + 1, w, before)
  {
    ghost var own := before + VainCalls(r, i - 1);
    var notFound;
    ghost var a;
    notFound, err, a := api.GetCASecret(r, i, w, own);
    o := Met(w, Heard(i, a), false);
    if err {
      EndsInRound(api, r, before, w, i, Broken, false);
      return true, true, o;
    }
    if !notFound {
      err, o := ReportReady(api, r, i, w, before);
      return true, err, o;
    }
    api.Nap(r, i, w, own + [PollQuery(r.k, Missing)]);
    NextRound(r, before, i);
    done := false;
  }

  /** The loop of at most a hundred rounds. */
  method AwaitSecret(api: Server, r: Run, w: Surroundings, ghost before: seq<Event>)
    returns (err: bool, ghost o: Outcomes)
    requires Launched(Met(w, [], false)) && BeforeRound(api, r, 1, w, before)
    modifies api
    ensures Finished(api, r, before, w, o, NO_REQUEUE, err)
  {
    for i := 1 to MAX_ROUNDS + 1
      invariant BeforeRound(api, r, i, w, before)
    {
      var done;
      done, err, o := PollRound(api, r, i, w, before);
      if done {
        return;
      }
    }
    o := Met(w, [], false);
    EndsInVain(api, r, before, w);
    return false, o;
  }

  lemma EndsAtFirstQuery(api: Server, r: Run, before: seq<Event>, w: Surroundings, a: Answer)
    requires FirstFailure(Met(w, [a], false)) == 3 && a != Missing && w.answer(0) == a
    requires api.Ended(r.k, before + SetupCalls(r, 3) + [FirstQuery(r.k, a)])
    ensures Finished(api, r, before, w, Met(w, [a], false), NO_REQUEUE, a == Broken)
  {
    AssocOne(before, SetupCalls(r, 3), FirstQuery(r.k, a));
  }

  lemma EndsAtJob(api: Server, r: Run, before: seq<Event>, w: Surroundings)
    requires FirstFailure(Met(w, [], false)) == 3 && w.reply(3).failed && w.answer(0) != Broken
    requires api.Ended(r.k, before + SetupCalls(r, 3) + [FirstQuery(r.k, Missing)] + [Fail(r.k)])
    ensures Finished(api, r, before, w, Met(w, [], false), w.reply(3).result.GetOr(NO_REQUEUE), true)
  {
    var calls, tail := SetupCalls(r, 3), [FirstQuery(r.k, Missing)] + [Fail(r.k)];
    assert CallsOf(r, Met(w, [], false)) == calls + tail;
    assert before + calls + [FirstQuery(r.k, Missing)] + [Fail(r.k)] == before + (calls + tail);
  }

  lemma StartsPolling(r: Run, before: seq<Event>)
    ensures before + SetupCalls(r, 3) + [FirstQuery(r.k, Missing)] + [ApplyJob(r.k)] == before + VainCalls(r, 0)
  {
  }

  /** From the first query on. */
  method QueryAndLaunch(api: Server, r: Run, w: Surroundings, ghost before: seq<Event>)
    returns (result: Result, err: bool, ghost o: Outcomes)
    requires api.Mid(r, BeforeQuery(r, 0), before + SetupCalls(r, 3)) && FirstFailure(Met(w, [], false)) == 3
    modifies api
    ensures Finished(api, r, before, w, o, result, err)
  {
    ghost var own := before + SetupCalls(r, 3);
    var notFound;
    ghost var a;
    notFound, err, a := api.GetCASecret(r, 0, w, own);
    if err || !notFound {
      o := Met(w, [a], false);
      EndsAtFirstQuery(api, r, before, w, a);
      return NO_REQUEUE, err, o;
    }
    own := own + [FirstQuery(r.k, Missing)];
    var job := AssembleJob(r.ca);
    var ended := ApplyOrReturn(api, r, 3, job, w, own);
    if ended.Some? {
      o := Met(w, [], false);
      EndsAtJob(api, r, before, w);
      return ended.value, true, o;
    }
    StartsPolling(r, before);
    result := NO_REQUEUE;
    err, o := AwaitSecret(api, r, w, before);
  }

  /** A run that asked in vain a hundred times returns no error and asks for no other run. */
  lemma GivesUpInSilence(r: Run, w: Surroundings, o: Outcomes)
    requires Launched(o) && MissingUntil(o, 1, 101)
    ensures !LastErred(CallsOf(r, o)) && ResultOf(w, o) == Reconcile.Result(false, 0)
  {
    RunUnroll(r.k, r.version, o, 101);
    assert MissingRounds(r.k, 100) == MissingRounds(r.k, 99) + [PollQuery(r.k, Missing), Sleep(r.k)];
    assert CallsOf(r, o)[|CallsOf(r, o)| - 1] == Sleep(r.k);
  }

  /** Apply `n` is the first of the four to fail. */
  predicate FirstToFail(o: Outcomes, n: nat) {
    && n < 4 && o.applyFails(n) && (forall j :: 0 <= j < n ==> !o.applyFails(j)) && (n == 3 ==> o.At(0) == Missing)
  }

  /** A run is asked for again exactly as the result of its failed apply says, and else not at all. */
  lemma OnlyFailedAppliesRequeue(w: Surroundings, o: Outcomes, n: nat)
    ensures FirstToFail(o, n) ==> ResultOf(w, o) == w.reply(n).result.GetOr(Reconcile.Result(false, 0))
    ensures ResultOf(w, o) != Reconcile.Result(false, 0) ==> exists m: nat :: FirstToFail(o, m)
  {
    if ResultOf(w, o) != Reconcile.Result(false, 0) {
      assert FirstToFail(o, FirstFailure(o));
    }
  }

  /** What a run read and met, if it found its resource at all. */
  datatype Record = NoRun | Ran(run: Run, met: Outcomes)

  method ReconcileCA(api: Server, k: NamespacedName, w: Surroundings)
    returns (result: Result, err: bool, ghost did: Record)
    requires api.Valid() && AtRest(api.state, k)
    modifies api
    ensures did.NoRun? ==> api.Ended(k, Own(old(api.log), k)) && result == NO_REQUEUE && err == w.sight.Unreachable?
    ensures did.NoRun? && w.sight.Version? ==> !Enabled(api.state, Get(k, w.sight.version))
    ensures did.Ran? ==> did.run.k == k && w.sight == Reconcile.Version(did.run.version)
    ensures did.Ran? ==> Finished(api, did.run, Own(old(api.log), k), w, did.met, result, err)
  {
    ghost var before := Own(api.log, k);
    var got := api.GetResource(k, w);
    if !got.Fetched? {
      return NO_REQUEUE, got.Failed?, NoRun;
    }
    var ended := ApplyRbac(api, got.run, w, before);
    if ended.Some? {
      return ended.value, true, Ran(got.run, Met(w, [], false));
    }
    ghost var o;
    result, err, o := QueryAndLaunch(api, got.run, w, before);
    did := Ran(got.run, o);
  }
}
