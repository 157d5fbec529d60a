/** Running the ChiaCA controller again for a resource that was delivered: any run is possible, and none
    changes anything. */
module CARerun {
  import opened Wrappers
  import opened CustomResources
  import opened GeneratorObjects
  import opened CAProtocol
  import opened CATheorems
  import opened CARuns
  import opened CASync

  // ---------- any run is possible ----------

  /** The resource exists, its latest version `v` is `ca` and was the last to be read, and its run stands at `p`. */
  predicate At(s: Cluster, k: NamespacedName, ca: ChiaCA, v: nat, p: Proc) {
    && k in s.entries && s.entries[k].live && |s.entries[k].history| == v + 1 && s.entries[k].history[v] == ca
    && s.entries[k].seen == v && s.entries[k].proc == p && CAKeyOf(ca) == k
  }

  /** A step of the run is possible, and leaves it at `p`. */
  predicate Walks(s: Cluster, e: Event, k: NamespacedName, ca: ChiaCA, v: nat, p: Proc) {
    Enabled(s, e) && At(Next(s, e), k, ca, v, p) && Next(s, e).ever == s.ever
  }

  lemma WalkApply(s: Cluster, k: NamespacedName, ca: ChiaCA, v: nat, n: nat)
    ensures At(s, k, ca, v, Setup(v, n)) && n < 3 ==> Walks(s, ApplySetup(k), k, ca, v, Setup(v, n + 1))
    ensures At(s, k, ca, v, Launching(v)) ==> Walks(s, ApplyJob(k), k, ca, v, Polling(v, 1))
  {
  }

  function AfterFirst(v: nat, a: Answer): Proc {
    if a == Missing then Launching(v) else Idle
  }

  function AfterPoll(v: nat, i: nat, a: Answer): Proc {
    match a
    case Found => Publishing(v)
    case Missing => Pausing(v, i)
    case Broken => Idle
  }

  /** The cache may give this answer. */
  predicate CanTell(s: Cluster, ca: ChiaCA, a: Answer) {
    a == Found ==> SecretOf(ca) in s.ever
  }

  lemma WalkQuery(s: Cluster, k: NamespacedName, ca: ChiaCA, v: nat, i: nat, a: Answer)
    requires CanTell(s, ca, a)
    ensures At(s, k, ca, v, Setup(v, 3)) ==> Walks(s, FirstQuery(k, a), k, ca, v, AfterFirst(v, a))
    ensures At(s, k, ca, v, Polling(v, i)) ==> Walks(s, PollQuery(k, a), k, ca, v, AfterPoll(v, i, a))
  {
  }

  lemma WalkOn(s: Cluster, k: NamespacedName, ca: ChiaCA, v: nat, p: Proc)
    requires At(s, k, ca, v, p) && !p.Idle? && p.version == v
    ensures Walks(s, Fail(k), k, ca, v, Idle)
    ensures p.Pausing? ==> Walks(s, Sleep(k), k, ca, v, if p.round < MAX_ROUNDS then Polling(v, p.round + 1) else Idle)
  {
  }

  /** The run has made these calls and stands at `p`. */
  ghost predicate Walked(es: seq<Event>, calls: seq<Event>, k: NamespacedName, ca: ChiaCA, v: nat, p: Proc)
    requires IsTrace(es)
  {
    && IsTrace(es + calls) && At(After(es + calls), k, ca, v, p)
    && After(es + calls).ever == After(es).ever
  }

  /** The run has made these calls and is over. */
  ghost predicate Rested(es: seq<Event>, calls: seq<Event>, k: NamespacedName, v: nat) {
    && IsTrace(es + calls) && k in After(es + calls).entries
    && After(es + calls).entries[k].proc.Idle? && After(es + calls).entries[k].seen == v
  }

  lemma WalkedOn(es: seq<Event>, calls: seq<Event>, e: Event, k: NamespacedName, ca: ChiaCA, v: nat, p': Proc)
    requires IsTrace(es) && IsTrace(es + calls) && After(es + calls).ever == After(es).ever
    requires Walks(After(es + calls), e, k, ca, v, p')
    ensures Walked(es, calls + [e], k, ca, v, p')
  {
    Extend(es + calls, e);
    assert es + calls + [e] == es + (calls + [e]);
  }

  lemma IdleRests(es: seq<Event>, calls: seq<Event>, k: NamespacedName, ca: ChiaCA, v: nat)
    requires IsTrace(es) && Walked(es, calls, k, ca, v, Idle)
    ensures Rested(es, calls, k, v)
  {
  }

  lemma UpdateRests(es: seq<Event>, calls: seq<Event>, k: NamespacedName, ca: ChiaCA, v: nat, o: Outcomes)
    requires IsTrace(es) && Walked(es, calls, k, ca, v, Publishing(v))
    ensures Rested(es, calls + [UpdateEvent(k, o)], k, v)
  {
    Extend(es + calls, UpdateEvent(k, o));
    assert es + calls + [UpdateEvent(k, o)] == es + (calls + [UpdateEvent(k, o)]);
  }

  /** Every answer is one that the cache may give. */
  ghost predicate CanTellAll(s: Cluster, ca: ChiaCA, o: Outcomes) {
    forall i: nat :: CanTell(s, ca, o.At(i))
  }

  /** The calls of a round in the run's record. */
  lemma PollCalls(calls: seq<Event>, k: NamespacedName, o: Outcomes, i: nat)
    requires i <= MAX_ROUNDS
    ensures var asked := calls + [PollQuery(k, o.At(i))];
            calls + PollFrom(k, o, i) == (match o.At(i)
                                          case Broken => asked
                                          case Found => asked + [UpdateEvent(k, o)]
                                          case Missing => asked + [Sleep(k)] + PollFrom(k, o, i + 1))
  {
  }

  lemma AskWalk(es: seq<Event>, calls: seq<Event>, k: NamespacedName, ca: ChiaCA, v: nat, i: nat, a: Answer)
    requires IsTrace(es) && Walked(es, calls, k, ca, v, Polling(v, i)) && CanTell(After(es), ca, a)
    ensures Walked(es, calls + [PollQuery(k, a)], k, ca, v, AfterPoll(v, i, a))
  {
    WalkQuery(After(es + calls), k, ca, v, i, a);
    WalkedOn(es, calls, PollQuery(k, a), k, ca, v, AfterPoll(v, i, a));
  }

  lemma {:induction false} PollWalk(es: seq<Event>, calls: seq<Event>, k: NamespacedName, ca: ChiaCA, v: nat,
                                    o: Outcomes, i: nat)
    requires IsTrace(es) && i <= MAX_ROUNDS && Walked(es, calls, k, ca, v, Polling(v, i))
    requires CanTellAll(After(es), ca, o)
    ensures Rested(es, calls + PollFrom(k, o, i), k, v)
    decreases MAX_ROUNDS - i
  {
    var a := o.At(i);
    var asked := calls + [PollQuery(k, a)];
    AskWalk(es, calls, k, ca, v, i, a);
    PollCalls(calls, k, o, i);
    match a
    case Broken => IdleRests(es, asked, k, ca, v);
    case Found => UpdateRests(es, asked, k, ca, v, o);
    case Missing =>
      SleepWalk(es, asked, k, ca, v, i);
      if i < MAX_ROUNDS {
        PollWalk(es, asked + [Sleep(k)], k, ca, v, o, i + 1);
      } else {
        IdleRests(es, asked + [Sleep(k)], k, ca, v);
        assert asked + [Sleep(k)] + [] == asked + [Sleep(k)];
      }
  }

  lemma SleepWalk(es: seq<Event>, calls: seq<Event>, k: NamespacedName, ca: ChiaCA, v: nat, i: nat)
    requires IsTrace(es) && Walked(es, calls, k, ca, v, Pausing(v, i))
    ensures Walked(es, calls + [Sleep(k)], k, ca, v, if i < MAX_ROUNDS then Polling(v, i + 1) else Idle)
  {
    WalkOn(After(es + calls), k, ca, v, Pausing(v, i));
    WalkedOn(es, calls, Sleep(k), k, ca, v, if i < MAX_ROUNDS then Polling(v, i + 1) else Idle);
  }

  /** The resource exists and is not being run, and its latest version can be read. */
  predicate CanStart(s: Cluster, k: NamespacedName, ca: ChiaCA, v: nat) {
    && k in s.entries && s.entries[k].live && |s.entries[k].history| == v + 1 && s.entries[k].history[v] == ca
    && s.entries[k].seen <= v && s.entries[k].proc.Idle? && CAKeyOf(ca) == k
  }

  lemma ReadWalk(s: Cluster, k: NamespacedName, ca: ChiaCA, v: nat)
    requires CanStart(s, k, ca, v)
    ensures Walks(s, Get(k, v), k, ca, v, Setup(v, 0))
  {
  }

  lemma {:induction false} SetupWalk(es: seq<Event>, k: NamespacedName, ca: ChiaCA, v: nat, n: nat)
    requires IsTrace(es) && CanStart(After(es), k, ca, v) && n <= 3
    ensures Walked(es, SetupEvents(k, v, n), k, ca, v, Setup(v, n))
    decreases n
  {
    if n == 0 {
      assert es + [] == es;
      ReadWalk(After(es), k, ca, v);
      WalkedOn(es, [], Get(k, v), k, ca, v, Setup(v, 0));
      assert [] + [Get(k, v)] == SetupEvents(k, v, 0);
    } else {
      SetupWalk(es, k, ca, v, n - 1);
      WalkApply(After(es + SetupEvents(k, v, n - 1)), k, ca, v, n - 1);
      WalkedOn(es, SetupEvents(k, v, n - 1), ApplySetup(k), k, ca, v, Setup(v, n));
    }
  }

  lemma FailRests(es: seq<Event>, calls: seq<Event>, k: NamespacedName, ca: ChiaCA, v: nat, p: Proc)
    requires IsTrace(es) && Walked(es, calls, k, ca, v, p) && !p.Idle? && p.version == v
    ensures Rested(es, calls + [Fail(k)], k, v)
  {
    WalkOn(After(es + calls), k, ca, v, p);
    WalkedOn(es, calls, Fail(k), k, ca, v, Idle);
    IdleRests(es, calls + [Fail(k)], k, ca, v);
  }

  /** From the first query on. */
  lemma QueryWalk(es: seq<Event>, calls: seq<Event>, k: NamespacedName, ca: ChiaCA, v: nat, o: Outcomes)
    requires IsTrace(es) && Walked(es, calls, k, ca, v, Setup(v, 3)) && CanTellAll(After(es), ca, o)
    ensures Rested(es, calls + AfterSetup(k, o), k, v)
  {
    var a := o.At(0);
    var asked := calls + [FirstQuery(k, a)];
    assert CanTell(After(es), ca, a);
    WalkQuery(After(es + calls), k, ca, v, 0, a);
    WalkedOn(es, calls, FirstQuery(k, a), k, ca, v, AfterFirst(v, a));
    if a != Missing {
      IdleRests(es, asked, k, ca, v);
      assert calls + AfterSetup(k, o) == asked;
    } else if o.applyFails(3) {
      FailRests(es, asked, k, ca, v, Launching(v));
      assert calls + AfterSetup(k, o) == asked + [Fail(k)];
    } else {
      JobWalk(es, asked, k, ca, v, o);
      assert calls + AfterSetup(k, o) == asked + [ApplyJob(k)] + PollFrom(k, o, 1);
    }
  }

  lemma JobWalk(es: seq<Event>, calls: seq<Event>, k: NamespacedName, ca: ChiaCA, v: nat, o: Outcomes)
    requires IsTrace(es) && Walked(es, calls, k, ca, v, Launching(v)) && CanTellAll(After(es), ca, o)
    ensures Rested(es, calls + [ApplyJob(k)] + PollFrom(k, o, 1), k, v)
  {
    WalkApply(After(es + calls), k, ca, v, 0);
    WalkedOn(es, calls, ApplyJob(k), k, ca, v, Polling(v, 1));
    PollWalk(es, calls + [ApplyJob(k)], k, ca, v, o, 1);
  }

  /** From every reachable state in which the resource is not being run: a run with any outcomes, but
      that no query finds a Secret that never was, can take place, and ends. */
  lemma AnyRunGoesThrough(es: seq<Event>, k: NamespacedName, ca: ChiaCA, v: nat, o: Outcomes)
    requires IsTrace(es) && CanStart(After(es), k, ca, v) && CanTellAll(After(es), ca, o)
    ensures Rested(es, RunEvents(k, v, o), k, v)
  {
    var n := FirstFailure(o);
    SetupWalk(es, k, ca, v, n);
    if n < 3 {
      FailRests(es, SetupEvents(k, v, n), k, ca, v, Setup(v, n));
    } else {
      QueryWalk(es, SetupEvents(k, v, 3), k, ca, v, o);
    }
  }

  // ---------- calls of a delivered resource's own ----------

  /** A call of the resource's run. */
  predicate OwnCall(e: Event, k: NamespacedName) {
    Touched(e) == Some(k) && !UserTouches(e, k)
  }

  /** The clusters differ at most in what the resource's run last read and in where it stands. */
  predicate SameButRun(s: Cluster, t: Cluster, k: NamespacedName) {
    && k in s.entries && k in t.entries
    && t == s.(entries := s.entries[k := s.entries[k].(seen := t.entries[k].seen, proc := t.entries[k].proc)])
  }

  lemma ApplyRests(s: Cluster, e: Event)
    requires Inv(s) && Enabled(s, e) && IsApply(e) && Synced(s, e.k)
    ensures SameButRun(s, Next(s, e), e.k)
  {
    ApplyWrites(s, e);
    assert EntryInv(s, e.k, s.entries[e.k]);
    var i := AppliedBy(s.entries[e.k].proc);
    assert s.objects[Places(e.k)[i] := Generated(Current(s.entries[e.k]))[i]] == s.objects;
  }

  lemma OtherRests(s: Cluster, e: Event, k: NamespacedName)
    requires Enabled(s, e) && OwnCall(e, k) && !IsApply(e) && Synced(s, k)
    ensures SameButRun(s, Next(s, e), k)
  {
  }

  lemma CallRests(s: Cluster, e: Event, k: NamespacedName)
    requires Inv(s) && Enabled(s, e) && OwnCall(e, k) && Synced(s, k)
    ensures SameButRun(s, Next(s, e), k) && Synced(Next(s, e), k)
  {
    StepKeepsSynced(s, e, k);
    if IsApply(e) {
      ApplyRests(s, e);
    } else {
      OtherRests(s, e, k);
    }
  }

  predicate OwnCalls(calls: seq<Event>, k: NamespacedName) {
    forall i :: 0 <= i < |calls| ==> OwnCall(calls[i], k)
  }

  lemma SameButRunAgain(s: Cluster, t: Cluster, u: Cluster, k: NamespacedName)
    requires SameButRun(s, t, k) && SameButRun(t, u, k)
    ensures SameButRun(s, u, k)
  {
  }

  /** Whatever calls a run of the resource makes, they change nothing. */
  lemma {:induction false} CallsRest(es: seq<Event>, calls: seq<Event>, k: NamespacedName)
    requires IsTrace(es) && IsTrace(es + calls) && Synced(After(es), k) && OwnCalls(calls, k)
    ensures SameButRun(After(es), After(es + calls), k) && Synced(After(es + calls), k)
    decreases |calls|
  {
    if calls == [] {
      assert es + [] == es;
    } else {
      var front, e := calls[..|calls| - 1], calls[|calls| - 1];
      assert (es + calls)[..|es + calls| - 1] == es + front;
      CallsRest(es, front, k);
      TraceInv(es + front);
      CallRests(After(es + front), e, k);
      SameButRunAgain(After(es), After(es + front), After(es + calls), k);
    }
  }

  // ---------- a run's calls are its own ----------

  lemma OwnAppend(a: seq<Event>, b: seq<Event>, k: NamespacedName)
    requires OwnCalls(a, k) && OwnCalls(b, k)
    ensures OwnCalls(a + b, k)
  {
  }

  lemma {:induction false} PollIsOwn(k: NamespacedName, o: Outcomes, i: nat)
    ensures OwnCalls(PollFrom(k, o, i), k)
    decreases MAX_ROUNDS + 1 - i
  {
    if i <= MAX_ROUNDS && o.At(i) == Missing {
      PollIsOwn(k, o, i + 1);
      MissingRound(k, o, i);
      OwnAppend([PollQuery(k, Missing), Sleep(k)], PollFrom(k, o, i + 1), k);
    }
  }

  lemma {:induction false} SetupIsOwn(k: NamespacedName, v: nat, n: nat)
    ensures OwnCalls(SetupEvents(k, v, n), k)
    decreases n
  {
    if n > 0 {
      SetupIsOwn(k, v, n - 1);
    }
  }

  lemma RunIsOwn(k: NamespacedName, v: nat, o: Outcomes)
    ensures OwnCalls(RunEvents(k, v, o), k)
  {
    var n := FirstFailure(o);
    SetupIsOwn(k, v, n);
    if n < 3 {
      OwnAppend(SetupEvents(k, v, n), [Fail(k)], k);
    } else {
      PollIsOwn(k, o, 1);
      assert OwnCalls(AfterSetup(k, o), k);
      OwnAppend(SetupEvents(k, v, 3), AfterSetup(k, o), k);
    }
  }

  // ---------- running again ----------

  /** Running a delivered resource again is possible with any outcomes that the cache allows, and
      changes no object, no Secret, no pod and no status. */
  lemma RerunIsFixpoint(es: seq<Event>, k: NamespacedName, o: Outcomes)
    requires IsTrace(es) && Delivered(es, k) && k in After(es).entries && After(es).entries[k].proc.Idle?
    requires After(es).entries[k].history != [] && CanTellAll(After(es), Current(After(es).entries[k]), o)
    ensures var s, v := After(es), |After(es).entries[k].history| - 1;
            && IsTrace(es + RunEvents(k, v, o))
            && After(es + RunEvents(k, v, o)) == s.(entries := s.entries[k := s.entries[k].(seen := v)])
  {
    var s, v := After(es), |After(es).entries[k].history| - 1;
    TraceInv(es);
    DeliveredIsSynced(es, k);
    assert EntryInv(s, k, s.entries[k]);
    AnyRunGoesThrough(es, k, Current(s.entries[k]), v, o);
    RunIsOwn(k, v, o);
    CallsRest(es, RunEvents(k, v, o), k);
  }

  /** A step that does not disturb a resource in sync leaves what it asks for, and its objects, as they are. */
  lemma UndisturbedStep(s: Cluster, e: Event, k: NamespacedName)
    requires Inv(s) && Enabled(s, e) && Synced(s, k) && !Disturbs(e, k)
    ensures Synced(Next(s, e), k) && Current(Next(s, e).entries[k]) == Current(s.entries[k])
  {
    StepKeepsSynced(s, e, k);
  }

  /** However a history goes on after a delivery, as long as nothing disturbs the resource its four
      objects stay just as they are, whatever its own and others' runs, pods and crashes do. */
  lemma {:induction false} DeliveryLasts(es: seq<Event>, more: seq<Event>, k: NamespacedName)
    requires IsTrace(es) && Delivered(es, k) && IsTrace(es + more)
    requires forall i :: 0 <= i < |more| ==> !Disturbs(more[i], k)
    ensures Synced(After(es), k) && Synced(After(es + more), k)
    ensures Current(After(es + more).entries[k]) == Current(After(es).entries[k])
    ensures forall j :: 0 <= j < 4 ==> SameAt(After(es).objects, After(es + more).objects, Places(k)[j])
    decreases |more|
  {
    DeliveredIsSynced(es, k);
    TraceInv(es);
    assert EntryInv(After(es), k, After(es).entries[k]);
    if more == [] {
      assert es + [] == es;
    } else {
      var front, e := more[..|more| - 1], more[|more| - 1];
      assert (es + more)[..|es + more| - 1] == es + front;
      DeliveryLasts(es, front, k);
      TraceInv(es + front);
      UndisturbedStep(After(es + front), e, k);
    }
  }
}
