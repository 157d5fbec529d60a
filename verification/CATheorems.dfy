/** Properties of every history of the ChiaCA protocol. */
module CATheorems {
  import opened Wrappers
  import opened Kubernetes
  import opened CustomResources
  import opened GeneratorObjects
  import opened CAProtocol

  // ---------- authorisation ----------

  /** Whenever a Job exists, its account, role and binding exist in its namespace and refer to one
      another by name, the Job runs as that account, and the role grants `create` on Secrets and
      nothing else. */
  lemma JobIsLinked(es: seq<Event>, k: NamespacedName)
    requires IsTrace(es) && JobKey(k) in After(es).objects
    ensures var objects := After(es).objects;
            && SetUp(objects, k)
            && objects[JobKey(k)].Job? && objects[AccountKey(k)].ServiceAccount?
            && objects[RoleKeyOf(k)].Role? && objects[BindingKey(k)].RoleBinding?
            && objects[JobKey(k)].serviceAccountName == objects[AccountKey(k)].meta.name
            && objects[BindingKey(k)].subjects == [Subject("ServiceAccount", objects[AccountKey(k)].meta.name)]
            && objects[BindingKey(k)].roleRef == RoleRef("Role", objects[RoleKeyOf(k)].meta.name)
            && objects[AccountKey(k)].meta.ns == objects[RoleKeyOf(k)].meta.ns == objects[BindingKey(k)].meta.ns == k.ns
            && objects[RoleKeyOf(k)].rules == GENERATOR_RULES
  {
    TraceInv(es);
    var objects := After(es).objects;
    assert WellShaped(JobKey(k), objects[JobKey(k)]) && WellShaped(AccountKey(k), objects[AccountKey(k)]);
    assert WellShaped(RoleKeyOf(k), objects[RoleKeyOf(k)]) && WellShaped(BindingKey(k), objects[BindingKey(k)]);
  }

  lemma GrantedOnlyCreate(s: Cluster, key: Key, pod: Pod, verb: string, target: NamespacedName)
    requires Inv(s) && Grants(s.objects, key, pod, verb, target)
    ensures verb == "create" && target.ns == pod.ns
  {
    GeneratorRulesGrant(verb);
    assert WellShaped(key, s.objects[key]);
  }

  lemma CreateIsGranted(s: Cluster, pod: Pod, target: NamespacedName)
    requires Inv(s) && pod in s.pods && target.ns == pod.ns
    ensures Allowed(s.objects, pod, "create", target)
  {
    assert Sponsored(s, pod);
    var k :| BelongsTo(s, pod, k);
    GeneratorRulesGrant("create");
    assert WellShaped(BindingKey(k), s.objects[BindingKey(k)]) && WellShaped(RoleKeyOf(k), s.objects[RoleKeyOf(k)]);
    assert s.objects[BindingKey(k)].subjects[0] == Subject("ServiceAccount", pod.serviceAccount);
    assert Grants(s.objects, BindingKey(k), pod, "create", target);
  }

  /** Whatever image a pod of a generator runs, of all calls on all Secrets the operator's objects let
      it make just one: create a Secret in its own namespace. */
  lemma PodsMayOnlyCreate(es: seq<Event>, pod: Pod, verb: string, target: NamespacedName)
    requires IsTrace(es) && pod in After(es).pods
    ensures Allowed(After(es).objects, pod, verb, target) <==> verb == "create" && target.ns == pod.ns
  {
    var s := After(es);
    TraceInv(es);
    if Allowed(s.objects, pod, verb, target) {
      var key :| key in s.objects && Grants(s.objects, key, pod, verb, target);
      GrantedOnlyCreate(s, key, pod, verb, target);
    }
    if verb == "create" && target.ns == pod.ns {
      CreateIsGranted(s, pod, target);
    }
  }

  // ---------- write-once ----------

  predicate UserTouchesSecret(e: Event, secret: NamespacedName) {
    (e.PutSecret? || e.DropSecret?) && e.secret == secret
  }

  lemma StepKeepsMaterial(s: Cluster, e: Event, secret: NamespacedName)
    requires Inv(s) && Enabled(s, e) && secret in s.secrets && !UserTouchesSecret(e, secret)
    ensures secret in Next(s, e).secrets && Next(s, e).secrets[secret] == s.secrets[secret]
  {
    if e.PodCall? && Allowed(s.objects, e.pod, e.verb, e.secret) {
      var key :| key in s.objects && Grants(s.objects, key, e.pod, e.verb, e.secret);
      GrantedOnlyCreate(s, key, e.pod, e.verb, e.secret);
    }
  }

  /** After the first `i` steps the Secret existed. */
  predicate ExistedAfter(es: seq<Event>, i: nat, secret: NamespacedName) {
    i <= |es| && IsTrace(es[..i]) && secret in After(es[..i]).secrets
  }

  /** Once a Secret exists its contents never change, however many Jobs, retries and resources name it,
      and whatever their pods try, unless a user touches it. */
  lemma {:induction false} CAMaterialIsWriteOnce(es: seq<Event>, i: nat, secret: NamespacedName)
    requires IsTrace(es) && ExistedAfter(es, i, secret)
    requires forall j :: i <= j < |es| ==> !UserTouchesSecret(es[j], secret)
    ensures secret in After(es).secrets && After(es).secrets[secret] == After(es[..i]).secrets[secret]
  {
    if i == |es| {
      assert es[..i] == es;
    } else {
      var front := es[..|es| - 1];
      assert front[..i] == es[..i];
      CAMaterialIsWriteOnce(front, i, secret);
      TraceInv(front);
      StepKeepsMaterial(After(front), es[|es| - 1], secret);
    }
  }

  // ---------- Ready ----------

  lemma NewSecretExists(s: Cluster, e: Event, secret: NamespacedName)
    requires Enabled(s, e) && secret !in s.ever && secret in Next(s, e).ever
    ensures secret in Next(s, e).secrets
  {
  }

  lemma {:induction false} EverExisted(es: seq<Event>, secret: NamespacedName)
    requires IsTrace(es) && secret in After(es).ever
    ensures exists i: nat :: ExistedAfter(es, i, secret)
  {
    if es != [] {
      var front := es[..|es| - 1];
      if secret in After(front).ever {
        EverExisted(front, secret);
        var i: nat :| ExistedAfter(front, i, secret);
        assert front[..i] == es[..i];
        assert ExistedAfter(es, i, secret);
      } else {
        NewSecretExists(After(front), es[|es| - 1], secret);
        assert es[..|es|] == es;
        assert ExistedAfter(es, |es|, secret);
      }
    }
  }

  ghost predicate HadSecret(es: seq<Event>, ca: ChiaCA) {
    exists i: nat :: ExistedAfter(es, i, SecretOf(ca))
  }

  /** A resource that is `Ready` has had a version whose Secret existed in some state of the past. */
  lemma ReadyHasEvidence(es: seq<Event>, k: NamespacedName)
    requires IsTrace(es) && k in After(es).entries && After(es).entries[k].ready
    ensures exists v :: 0 <= v < |After(es).entries[k].history| && HadSecret(es, After(es).entries[k].history[v])
  {
    TraceInv(es);
    var e := After(es).entries[k];
    var v :| 0 <= v < |e.history| && SecretOf(e.history[v]) in After(es).ever;
    EverExisted(es, SecretOf(e.history[v]));
    assert HadSecret(es, e.history[v]);
  }

  predicate UserTouches(e: Event, k: NamespacedName) {
    (e.Create? || e.Edit? || e.Delete?) && Touched(e) == Some(k)
  }

  /** `Ready` was written, and no user has touched the resource since. */
  ghost predicate Settled(es: seq<Event>, k: NamespacedName) {
    exists i :: 0 <= i < |es| && es[i] == Publish(k) && forall j :: i < j < |es| ==> !UserTouches(es[j], k)
  }

  predicate Truthful(s: Cluster, k: NamespacedName) {
    k in s.entries && s.entries[k].ready && s.entries[k].history != [] && SecretOf(Current(s.entries[k])) in s.ever
  }

  lemma PublishIsTruthful(s: Cluster, k: NamespacedName)
    requires Inv(s) && Enabled(s, Publish(k))
    ensures Truthful(Next(s, Publish(k)), k)
  {
  }

  lemma StepKeepsTruth(s: Cluster, e: Event, k: NamespacedName)
    requires Enabled(s, e) && Truthful(s, k) && !UserTouches(e, k)
    ensures Truthful(Next(s, e), k)
  {
    StepGrows(s, e);
  }

  /** While nobody touches the resource, `Ready` says that the Secret it names has existed. */
  lemma {:induction false} ReadyIsTruthful(es: seq<Event>, k: NamespacedName)
    requires IsTrace(es) && Settled(es, k)
    ensures Truthful(After(es), k)
  {
    var front, last := es[..|es| - 1], es[|es| - 1];
    if last == Publish(k) {
      TraceInv(front);
      PublishIsTruthful(After(front), k);
    } else {
      var i :| 0 <= i < |es| && es[i] == Publish(k) && forall j :: i < j < |es| ==> !UserTouches(es[j], k);
      assert front[i] == Publish(k);
      ReadyIsTruthful(front, k);
      StepKeepsTruth(After(front), last, k);
    }
  }

  lemma StepKeepsExistence(s: Cluster, e: Event, secret: NamespacedName)
    requires Inv(s) && Enabled(s, e) && e != DropSecret(secret)
    requires secret in s.ever ==> secret in s.secrets
    ensures secret in Next(s, e).ever ==> secret in Next(s, e).secrets
  {
    if secret in s.secrets && !e.PutSecret? {
      StepKeepsMaterial(s, e, secret);
    }
  }

  lemma {:induction false} UndroppedSecretExists(es: seq<Event>, secret: NamespacedName)
    requires IsTrace(es) && DropSecret(secret) !in es
    ensures secret in After(es).ever ==> secret in After(es).secrets
  {
    if es != [] {
      var front := es[..|es| - 1];
      UndroppedSecretExists(front, secret);
      TraceInv(front);
      StepKeepsExistence(After(front), es[|es| - 1], secret);
    }
  }

  /** If moreover no user ever removed that Secret, it exists now. */
  lemma ReadySecretExists(es: seq<Event>, k: NamespacedName)
    requires IsTrace(es) && Settled(es, k)
    requires k in After(es).entries && After(es).entries[k].history != []
    requires DropSecret(SecretOf(Current(After(es).entries[k]))) !in es
    ensures After(es).entries[k].ready && SecretOf(Current(After(es).entries[k])) in After(es).secrets
  {
    ReadyIsTruthful(es, k);
    UndroppedSecretExists(es, SecretOf(Current(After(es).entries[k])));
  }

  lemma Extend(es: seq<Event>, e: Event)
    requires IsTrace(es) && Enabled(After(es), e)
    ensures IsTrace(es + [e]) && After(es + [e]) == Next(After(es), e)
  {
    assert (es + [e])[..|es|] == es;
  }

  /** The status says `Ready` from such an update on, and until the resource is created anew: neither an
      edit nor a deletion, a failure or a crash takes it back. */
  lemma OnlyCreateTakesReadyBack(s: Cluster, e: Event, k: NamespacedName)
    requires Enabled(s, e) && k in s.entries
    ensures k in Next(s, e).entries
    ensures Next(s, e).entries[k].ready <==>
            e == Publish(k) || (s.entries[k].ready && !(e.Create? && CAKeyOf(e.ca) == k))
  {
  }

  /** The resource has had a newer version than `v`. */
  predicate Superseded(s: Cluster, k: NamespacedName, v: nat) {
    k in s.entries && v + 1 < |s.entries[k].history|
  }

  lemma StepKeepsSuperseded(s: Cluster, e: Event, k: NamespacedName, v: nat)
    requires Enabled(s, e) && Superseded(s, k, v)
    ensures Superseded(Next(s, e), k, v)
  {
  }

  /** Setting `Ready` is an update like any other: from then on no run that had read the resource before
      it can write the status, however long that run goes on or how often it is started anew. */
  lemma {:induction false} ReadyOutdatesReaders(es: seq<Event>, k: NamespacedName, more: seq<Event>)
    requires IsTrace(es) && Enabled(After(es), Publish(k)) && !After(es).entries[k].ready
    requires IsTrace(es + [Publish(k)] + more)
    ensures var v, t := After(es).entries[k].proc.version, After(es + [Publish(k)] + more);
            && Superseded(t, k, v)
            && (InRun(t, k) && t.entries[k].proc.version <= v ==> !Enabled(t, Publish(k)))
    decreases |more|
  {
    if more == [] {
      assert es + [Publish(k)] + [] == es + [Publish(k)];
      assert (es + [Publish(k)])[..|es|] == es;
    } else {
      var v, all, front := After(es).entries[k].proc.version, es + [Publish(k)] + more, more[..|more| - 1];
      assert all[..|all| - 1] == es + [Publish(k)] + front;
      ReadyOutdatesReaders(es, k, front);
      StepKeepsSuperseded(After(es + [Publish(k)] + front), all[|all| - 1], k, v);
    }
  }

  // ---------- when Ready says what is documented ----------

  /** The resource is `Ready`, and the Secret that it names is not in its namespace, against the
      documented meaning. */
  predicate Misreports(s: Cluster, k: NamespacedName) {
    && k in s.entries && s.entries[k].live && s.entries[k].ready
    && s.entries[k].history != [] && SecretOf(Current(s.entries[k])) !in s.secrets
  }

  /** An edit of a `Ready` resource to a Secret that is missing, the removal of the Secret of a `Ready`
      resource, or `Ready` being written for a Secret that only a lagging cache still shows. */
  predicate Spoils(s: Cluster, e: Event, k: NamespacedName)
    requires k in s.entries && s.entries[k].history != []
  {
    || (e.Edit? && CAKeyOf(e.ca) == k && s.entries[k].ready && SecretOf(e.ca) !in s.secrets)
    || (e == DropSecret(SecretOf(Current(s.entries[k]))) && s.entries[k].live && s.entries[k].ready)
    || (e == Publish(k) && SecretOf(Current(s.entries[k])) !in s.secrets)
  }

  lemma PodsSpoilNothing(s: Cluster, e: Event, k: NamespacedName)
    requires Inv(s) && Enabled(s, e) && e.PodCall? && k in s.entries && s.entries[k].history != []
    requires SecretOf(Current(s.entries[k])) in s.secrets
    ensures !Misreports(Next(s, e), k)
  {
    StepKeepsMaterial(s, e, SecretOf(Current(s.entries[k])));
  }

  lemma OthersSpoilIff(s: Cluster, e: Event, k: NamespacedName)
    requires Enabled(s, e) && !e.PodCall? && k in s.entries && s.entries[k].history != [] && !Misreports(s, k)
    ensures Misreports(Next(s, e), k) <==> Spoils(s, e, k)
  {
  }

  /** In every reachable state in which a resource is not misreported, exactly those steps make it so;
      no other step of a user, a run, a pod or a crash does. */
  lemma MisreportsIff(es: seq<Event>, e: Event, k: NamespacedName)
    requires IsTrace(es) && Enabled(After(es), e) && k in After(es).entries && !Misreports(After(es), k)
    ensures After(es).entries[k].history != []
    ensures Misreports(Next(After(es), e), k) <==> Spoils(After(es), e, k)
  {
    var s := After(es);
    TraceInv(es);
    if !e.PodCall? {
      OthersSpoilIff(s, e, k);
    } else if SecretOf(Current(s.entries[k])) in s.secrets {
      PodsSpoilNothing(s, e, k);
    }
  }

  // ---------- Ready is never written when the Secret is there already ----------

  predicate PastFirstQuery(p: Proc) {
    p.Launching? || p.Polling? || p.Pausing? || p.Publishing?
  }

  lemma PastQueryStep(s: Cluster, e: Event, k: NamespacedName)
    requires Enabled(s, e) && e != FirstQuery(k, Missing)
    requires k in s.entries ==> !PastFirstQuery(s.entries[k].proc) && !s.entries[k].ready
    ensures k in Next(s, e).entries ==> !PastFirstQuery(Next(s, e).entries[k].proc) && !Next(s, e).entries[k].ready
  {
  }

  /** A resource becomes `Ready` only through a run whose first query misses the Secret. So one whose
      Secret is found by the first query of each of its runs is never `Ready`, against the documented
      meaning. */
  lemma {:induction false} ReadyNeedsAMiss(es: seq<Event>, k: NamespacedName)
    requires IsTrace(es) && FirstQuery(k, Missing) !in es
    ensures k in After(es).entries ==> !PastFirstQuery(After(es).entries[k].proc) && !After(es).entries[k].ready
  {
    if es != [] {
      ReadyNeedsAMiss(es[..|es| - 1], k);
      PastQueryStep(After(es[..|es| - 1]), es[|es| - 1], k);
    }
  }
}
