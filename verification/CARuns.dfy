/** One run of the ChiaCA controller, as the calls it makes for given answers: when it writes `Ready`,
    and how many calls it takes at most. */
module CARuns {
  import opened CustomResources
  import opened CAProtocol

  /** How each call of a run comes out: the four applies, the query of each round (round 0 is the one
      before the Job; where nothing is said the Secret is missing), and the status update. */
  datatype Outcomes = Outcomes(applyFails: nat -> bool, answers: seq<Answer>, updateFails: bool) {
    function At(round: nat): Answer {
      if round < |answers| then answers[round] else Missing
    }
  }

  function UpdateEvent(k: NamespacedName, o: Outcomes): Event {
    if o.updateFails then Fail(k) else Publish(k)
  }

  /** The polling loop from round `i` on. */
  function PollFrom(k: NamespacedName, o: Outcomes, i: nat): seq<Event>
    decreases MAX_ROUNDS + 1 - i, k
  {
    if i > MAX_ROUNDS then []
    else [PollQuery(k, o.At(i))] +
         match o.At(i)
         case Broken => []
         case Found => [UpdateEvent(k, o)]
         case Missing => [Sleep(k)] + PollFrom(k, o, i + 1)
  }

  function SetupEvents(k: NamespacedName, version: nat, n: nat): seq<Event> {
    if n == 0 then [Get(k, version)] else SetupEvents(k, version, n - 1) + [ApplySetup(k)]
  }

  /** The first apply of the three that fails, or 3. */
  function FirstFailure(o: Outcomes): nat {
    if o.applyFails(0) then 0 else if o.applyFails(1) then 1 else if o.applyFails(2) then 2 else 3
  }

  /** From the first query on. */
  function AfterSetup(k: NamespacedName, o: Outcomes): seq<Event> {
    [FirstQuery(k, o.At(0))] +
    if o.At(0) != Missing then []
    else if o.applyFails(3) then [Fail(k)]
    else [ApplyJob(k)] + PollFrom(k, o, 1)
  }

  /** Every call of a run that reads the given version. */
  function RunEvents(k: NamespacedName, version: nat, o: Outcomes): seq<Event> {
    var n := FirstFailure(o);
    SetupEvents(k, version, n) + if n < 3 then [Fail(k)] else AfterSetup(k, o)
  }

  // ---------- the same calls, as the loop makes them ----------

  function MissingRounds(k: NamespacedName, n: nat): seq<Event> {
    if n == 0 then [] else MissingRounds(k, n - 1) + [PollQuery(k, Missing), Sleep(k)]
  }

  /** A run that has applied everything, after `n` rounds in vain. */
  function InVain(k: NamespacedName, version: nat, n: nat): seq<Event> {
    SetupEvents(k, version, 3) + [FirstQuery(k, Missing), ApplyJob(k)] + MissingRounds(k, n)
  }

  /** No apply fails, and the first query misses the Secret. */
  predicate Launched(o: Outcomes) {
    !o.applyFails(0) && !o.applyFails(1) && !o.applyFails(2) && o.At(0) == Missing && !o.applyFails(3)
  }

  /** Nothing was found, and nothing broke, in rounds `from` up to but not including `to`. */
  predicate MissingUntil(o: Outcomes, from: nat, to: nat) {
    forall j :: from <= j < to ==> o.At(j) == Missing
  }

  lemma MissingRound(k: NamespacedName, o: Outcomes, i: nat)
    requires i <= MAX_ROUNDS && o.At(i) == Missing
    ensures PollFrom(k, o, i) == [PollQuery(k, Missing), Sleep(k)] + PollFrom(k, o, i + 1)
  {
    assert [PollQuery(k, Missing)] + [Sleep(k)] == [PollQuery(k, Missing), Sleep(k)];
  }

  lemma Assoc<T>(a: seq<T>, b: seq<T>, c: seq<T>)
    ensures a + (b + c) == a + b + c
  {
  }

  lemma {:induction false} PollUnroll(k: NamespacedName, o: Outcomes, i: nat)
    requires 1 <= i <= MAX_ROUNDS + 1 && MissingUntil(o, 1, i)
    ensures PollFrom(k, o, 1) == MissingRounds(k, i - 1) + PollFrom(k, o, i)
  {
    if i > 1 {
      PollUnroll(k, o, i - 1);
      MissingRound(k, o, i - 1);
      Assoc(MissingRounds(k, i - 2), [PollQuery(k, Missing), Sleep(k)], PollFrom(k, o, i));
    }
  }

  lemma RunUnroll(k: NamespacedName, version: nat, o: Outcomes, i: nat)
    requires Launched(o) && 1 <= i <= MAX_ROUNDS + 1 && MissingUntil(o, 1, i)
    ensures RunEvents(k, version, o) == InVain(k, version, i - 1) + PollFrom(k, o, i)
  {
    PollUnroll(k, o, i);
  }

  // ---------- when Ready is written ----------

  /** Round `i` is the first of the rounds from `from` to 100 to find the Secret, and none before it broke. */
  predicate FirstFoundAt(o: Outcomes, from: nat, i: nat) {
    from <= i <= 100 && o.At(i) == Found && MissingUntil(o, from, i)
  }

  ghost predicate PollSucceeds(o: Outcomes, from: nat) {
    exists i: nat :: FirstFoundAt(o, from, i)
  }

  lemma SkipMissing(o: Outcomes, i: nat)
    requires o.At(i) == Missing
    ensures PollSucceeds(o, i) <==> PollSucceeds(o, i + 1)
  {
    if PollSucceeds(o, i) {
      var j: nat :| FirstFoundAt(o, i, j);
      assert FirstFoundAt(o, i + 1, j);
    }
    if PollSucceeds(o, i + 1) {
      var j: nat :| FirstFoundAt(o, i + 1, j);
      assert FirstFoundAt(o, i, j);
    }
  }

  /** The first round decides, if it does not miss. */
  lemma NowOrNever(o: Outcomes, i: nat)
    requires i <= MAX_ROUNDS && o.At(i) != Missing
    ensures PollSucceeds(o, i) <==> o.At(i) == Found
  {
    if o.At(i) == Found {
      assert FirstFoundAt(o, i, i);
    }
  }

  // ---------- how many calls ----------

  datatype Call = Read | RbacApply | JobApply | Query | Nap | Status | Other

  function CallOf(e: Event): Call {
    match e
    case Get(_, _) => Read
    case ApplySetup(_) => RbacApply
    case ApplyJob(_) => JobApply
    case FirstQuery(_, _) => Query
    case PollQuery(_, _) => Query
    case Sleep(_) => Nap
    case Publish(_) => Status
    case _ => Other
  }

  function One(e: Event, c: Call): nat {
    if CallOf(e) == c then 1 else 0
  }

  function Count(es: seq<Event>, c: Call): nat {
    if es == [] then 0 else One(es[0], c) + Count(es[1..], c)
  }

  lemma CountCons(e: Event, es: seq<Event>, c: Call)
    ensures Count([e] + es, c) == One(e, c) + Count(es, c)
  {
    assert ([e] + es)[1..] == es;
  }

  lemma CountOne(e: Event, c: Call)
    ensures Count([e], c) == One(e, c)
  {
    assert [e][1..] == [];
  }

  lemma {:induction false} CountAppend(a: seq<Event>, b: seq<Event>, c: Call)
    ensures Count(a + b, c) == Count(a, c) + Count(b, c)
  {
    if a == [] {
      assert a + b == b;
    } else {
      CountAppend(a[1..], b, c);
      assert (a + b)[1..] == a[1..] + b;
    }
  }

  lemma {:induction false} CountSetup(k: NamespacedName, version: nat, n: nat, c: Call)
    ensures Count(SetupEvents(k, version, n), c) == (if c == Read then 1 else if c == RbacApply then n else 0)
  {
    if n == 0 {
      CountOne(Get(k, version), c);
    } else {
      CountSetup(k, version, n - 1, c);
      CountAppend(SetupEvents(k, version, n - 1), [ApplySetup(k)], c);
      CountOne(ApplySetup(k), c);
    }
  }

  lemma CountDecided(k: NamespacedName, o: Outcomes, i: nat, c: Call)
    requires i <= MAX_ROUNDS && o.At(i) != Missing && c != Other
    ensures Count(PollFrom(k, o, i), c) == One(PollQuery(k, o.At(i)), c) +
              if o.At(i) == Found then One(UpdateEvent(k, o), c) else 0
  {
    CountOne(PollQuery(k, o.At(i)), c);
    CountOne(UpdateEvent(k, o), c);
    CountAppend([PollQuery(k, o.At(i))], [UpdateEvent(k, o)], c);
  }

  lemma CountMissing(k: NamespacedName, o: Outcomes, i: nat, c: Call)
    requires i <= MAX_ROUNDS && o.At(i) == Missing
    ensures Count(PollFrom(k, o, i), c) ==
            One(PollQuery(k, Missing), c) + One(Sleep(k), c) + Count(PollFrom(k, o, i + 1), c)
  {
    CountCons(Sleep(k), PollFrom(k, o, i + 1), c);
    CountCons(PollQuery(k, Missing), [Sleep(k)] + PollFrom(k, o, i + 1), c);
  }

  lemma {:induction false} PollIsBounded(k: NamespacedName, o: Outcomes, i: nat, c: Call)
    requires 1 <= i <= MAX_ROUNDS + 1 && (c == Query || c == Nap || c == JobApply)
    ensures Count(PollFrom(k, o, i), c) <= if c == JobApply then 0 else MAX_ROUNDS + 1 - i
    decreases MAX_ROUNDS + 1 - i
  {
    if i <= MAX_ROUNDS {
      if o.At(i) == Missing {
        CountMissing(k, o, i, c);
        PollIsBounded(k, o, i + 1, c);
      } else {
        CountDecided(k, o, i, c);
      }
    }
  }

  lemma {:induction false} PollWritesIff(k: NamespacedName, o: Outcomes, i: nat)
    requires 1 <= i <= MAX_ROUNDS + 1
    ensures Count(PollFrom(k, o, i), Status) == if PollSucceeds(o, i) && !o.updateFails then 1 else 0
    decreases MAX_ROUNDS + 1 - i
  {
    if i <= MAX_ROUNDS {
      if o.At(i) == Missing {
        SkipMissing(o, i);
        CountMissing(k, o, i, Status);
        PollWritesIff(k, o, i + 1);
      } else {
        NowOrNever(o, i);
        CountDecided(k, o, i, Status);
      }
    }
  }

  lemma CountLaunched(k: NamespacedName, o: Outcomes, c: Call)
    requires o.At(0) == Missing && !o.applyFails(3)
    ensures Count(AfterSetup(k, o), c) ==
            One(FirstQuery(k, Missing), c) + One(ApplyJob(k), c) + Count(PollFrom(k, o, 1), c)
  {
    CountCons(FirstQuery(k, Missing), [ApplyJob(k)] + PollFrom(k, o, 1), c);
    CountCons(ApplyJob(k), PollFrom(k, o, 1), c);
  }

  lemma CountUnlaunched(k: NamespacedName, o: Outcomes, c: Call)
    requires (o.At(0) != Missing || o.applyFails(3)) && c != Other
    ensures Count(AfterSetup(k, o), c) == One(FirstQuery(k, o.At(0)), c)
  {
    CountOne(FirstQuery(k, o.At(0)), c);
    CountOne(Fail(k), c);
    CountAppend([FirstQuery(k, o.At(0))], [Fail(k)], c);
  }

  /** What a run's calls of one kind add up to. */
  lemma CountRun(k: NamespacedName, version: nat, o: Outcomes, c: Call)
    requires c == Query || c == Nap || c == Status || c == JobApply
    ensures Launched(o) ==>
              Count(RunEvents(k, version, o), c) ==
              One(FirstQuery(k, Missing), c) + One(ApplyJob(k), c) + Count(PollFrom(k, o, 1), c)
    ensures !Launched(o) ==> Count(RunEvents(k, version, o), c) <= One(FirstQuery(k, Missing), c)
  {
    var n := FirstFailure(o);
    CountSetup(k, version, n, c);
    CountAppend(SetupEvents(k, version, n), if n < 3 then [Fail(k)] else AfterSetup(k, o), c);
    if n < 3 {
      CountOne(Fail(k), c);
    } else if Launched(o) {
      CountLaunched(k, o, c);
    } else {
      CountUnlaunched(k, o, c);
    }
  }

  /** For all answers: a run writes `Ready` if and only if the RBAC objects are applied, the first
      query misses the Secret, the Job is applied, some round from 1 to 100 is the first to find the
      Secret with nothing broken before it, and the update goes through; and it writes at most once. */
  lemma RunWritesReadyIff(k: NamespacedName, version: nat, o: Outcomes)
    ensures Count(RunEvents(k, version, o), Status) ==
            if Launched(o) && PollSucceeds(o, 1) && !o.updateFails then 1 else 0
  {
    CountRun(k, version, o, Status);
    PollWritesIff(k, o, 1);
  }

  /** A run asks at most 101 times and sleeps at most 100 times. */
  lemma RunIsBounded(k: NamespacedName, version: nat, o: Outcomes)
    ensures Count(RunEvents(k, version, o), Query) <= 101
    ensures Count(RunEvents(k, version, o), Nap) <= 100
  {
    assert Count(RunEvents(k, version, o), Query) <= 101 by {
      CountRun(k, version, o, Query);
      PollIsBounded(k, o, 1, Query);
    }
    CountRun(k, version, o, Nap);
    PollIsBounded(k, o, 1, Nap);
  }

  lemma {:induction false} CountMissingRounds(k: NamespacedName, n: nat, c: Call)
    requires c == Query || c == Nap
    ensures Count(MissingRounds(k, n), c) == n
  {
    if n > 0 {
      CountMissingRounds(k, n - 1, c);
      CountAppend(MissingRounds(k, n - 1), [PollQuery(k, Missing), Sleep(k)], c);
      CountCons(PollQuery(k, Missing), [Sleep(k)], c);
      CountOne(Sleep(k), c);
      assert [PollQuery(k, Missing)] + [Sleep(k)] == [PollQuery(k, Missing), Sleep(k)];
    }
  }

  /** Round `i` is the first that does not miss, or all hundred miss and `i` is 101. */
  predicate DecidedIn(o: Outcomes, i: nat) {
    1 <= i <= 101 && MissingUntil(o, 1, i) && (i <= 100 ==> o.At(i) != Missing)
  }

  lemma CountPolls(k: NamespacedName, o: Outcomes, i: nat, c: Call)
    requires DecidedIn(o, i) && (c == Query || c == Nap)
    ensures Count(PollFrom(k, o, 1), c) == if c == Query && i <= 100 then i else i - 1
  {
    PollUnroll(k, o, i);
    CountAppend(MissingRounds(k, i - 1), PollFrom(k, o, i), c);
    CountMissingRounds(k, i - 1, c);
    CountLastRound(k, o, i, c);
  }

  lemma CountLastRound(k: NamespacedName, o: Outcomes, i: nat, c: Call)
    requires DecidedIn(o, i) && (c == Query || c == Nap)
    ensures Count(PollFrom(k, o, i), c) == if c == Query && i <= 100 then 1 else 0
  {
    if i <= 100 {
      CountDecided(k, o, i, c);
    }
  }

  /** A run that applied the Job asks once before it and once in each round up to the one that decides,
      and sleeps after each round in vain; with all hundred in vain that is 101 times and 100 times. */
  lemma RunCalls(k: NamespacedName, version: nat, o: Outcomes, i: nat)
    requires Launched(o) && DecidedIn(o, i)
    ensures Count(RunEvents(k, version, o), Query) == if i <= 100 then i + 1 else 101
    ensures Count(RunEvents(k, version, o), Nap) == if i <= 100 then i - 1 else 100
  {
    CountRun(k, version, o, Query);
    CountPolls(k, o, i, Query);
    CountRun(k, version, o, Nap);
    CountPolls(k, o, i, Nap);
  }

  /** A Secret that turns up in any of the hundred rounds is reported, and that is the run's last call. */
  lemma FoundIsReported(k: NamespacedName, version: nat, o: Outcomes, i: nat)
    requires Launched(o) && 1 <= i <= 100 && o.At(i) == Found && MissingUntil(o, 1, i) && !o.updateFails
    ensures var calls := RunEvents(k, version, o); calls[|calls| - 1] == Publish(k)
  {
    RunUnroll(k, version, o, i);
    assert PollFrom(k, o, i) == [PollQuery(k, Found)] + [Publish(k)];
  }

  /** It applies the Job, once, if and only if the RBAC objects are applied, the first query misses
      the Secret and the Job's own apply goes through. */
  lemma RunMakesJobIff(k: NamespacedName, version: nat, o: Outcomes)
    ensures Count(RunEvents(k, version, o), JobApply) == if Launched(o) then 1 else 0
  {
    CountRun(k, version, o, JobApply);
    PollIsBounded(k, o, 1, JobApply);
  }
}
