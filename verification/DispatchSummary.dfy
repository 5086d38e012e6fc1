/**
  What a dispatch run reports against what it leaves in the store, and three histories in which the
  two differ.
 */
module DispatchSummary {
  import opened Wrappers
  import opened EventDispatcher

  /** How many of the first `n` numbers have the property. */
  function Tally(p: int -> bool, n: nat): nat {
    if n == 0 then 0 else Tally(p, n - 1) + if p(n - 1) then 1 else 0
  }

  function One(b: bool): nat {
    if b then 1 else 0
  }

  lemma {:induction false} TallyZero(p: int -> bool, n: nat)
    ensures Tally(p, n) == 0 <==> forall i :: 0 <= i < n ==> !p(i)
  {
    if n > 0 { TallyZero(p, n - 1); }
  }

  lemma {:induction false} TallyBalance(a: int -> bool, b: int -> bool, c: int -> bool, d: int -> bool, e: int -> bool, n: nat)
    requires forall i :: 0 <= i < n ==> One(a(i)) + One(b(i)) + One(c(i)) == One(d(i)) + One(e(i))
    ensures Tally(a, n) + Tally(b, n) + Tally(c, n) == Tally(d, n) + Tally(e, n)
  {
    if n > 0 { TallyBalance(a, b, c, d, e, n - 1); }
  }

  // ---- what became of a lease ----------------------------------------------------------------

  /** The run counted its lease `i` so. */
  predicate CountedAs(run: Run, v: Verdict, i: int) {
    0 <= i < |run.verdicts| && run.verdicts[i] == v
  }

  predicate Owns(run: Run, r: Repository, i: int) {
    0 <= i < |run.verdicts| <= |run.leases| && Mine(run, r, run.leases[i])
  }

  /** The run called the provider for its lease `i`, and the intent is in the store with this status. */
  predicate StoredAs(run: Run, r: Repository, s: Status, i: int) {
    Owns(run, r, i) && run.leases[i] < |r.intents| && r.intents[run.leases[i]].status == s
  }

  /** Its completion as SENT took effect, and the answer was lost. */
  predicate LostAt(run: Run, r: Repository, i: int) {
    Owns(run, r, i) && run.leases[i] in r.lost
  }

  /** It was counted so, and no completion of it took effect. */
  predicate Unrecorded(run: Run, r: Repository, v: Verdict, i: int) {
    Owns(run, r, i) && run.verdicts[i] == v && run.leases[i] !in r.recorded
  }

  /** It was counted so, no completion of it took effect, and its lease has been given up since. */
  predicate GivenUp(run: Run, r: Repository, v: Verdict, i: int) {
    Unrecorded(run, r, v, i) && run.leases[i] in r.expired
  }

  /** It was counted so, no completion of it took effect, and its lease has not been given up. */
  predicate Open(run: Run, r: Repository, v: Verdict, i: int) {
    Unrecorded(run, r, v, i) && run.leases[i] !in r.expired
  }

  function InStore(run: Run, r: Repository, s: Status): nat {
    Tally(i => StoredAs(run, r, s, i), |run.verdicts|)
  }

  function LostOnes(run: Run, r: Repository): nat {
    Tally(i => LostAt(run, r, i), |run.verdicts|)
  }

  function UnrecordedOnes(run: Run, r: Repository, v: Verdict): nat {
    Tally(i => Unrecorded(run, r, v, i), |run.verdicts|)
  }

  function GivenUpOnes(run: Run, r: Repository, v: Verdict): nat {
    Tally(i => GivenUp(run, r, v, i), |run.verdicts|)
  }

  function OpenOnes(run: Run, r: Repository, v: Verdict): nat {
    Tally(i => Open(run, r, v, i), |run.verdicts|)
  }

  /** One lease: its status in the store, by verdict and by which calls took effect. */
  lemma LeaseAgainstStore(run: Run, r: Repository, i: int)
    requires RepoOk(r) && VerdictsOk(run, r) && 0 <= i < |run.verdicts|
    ensures One(StoredAs(run, r, SENT, i)) == One(CountedAs(run, Sent, i)) + One(LostAt(run, r, i))
    ensures One(StoredAs(run, r, FAILED, i)) + One(Unrecorded(run, r, Failed, i)) == One(CountedAs(run, Failed, i))
    ensures One(StoredAs(run, r, UNCERTAIN, i)) + One(LostAt(run, r, i)) + One(Open(run, r, Uncertain, i))
         == One(CountedAs(run, Uncertain, i)) + One(GivenUp(run, r, Failed, i))
  {
    var id := run.leases[i];
    assert VerdictOk(run, r, id, run.verdicts[i]);
    assert RecordOk(r, id) && Explained(r, id);
    assert IntentOk(r, id);
  }

  lemma {:induction false} CountingIsCount(run: Run, v: Verdict, n: nat)
    requires n <= |run.verdicts|
    ensures Tally(i => CountedAs(run, v, i), n) == Count(run.verdicts[..n], v)
  {
    if n > 0 {
      CountingIsCount(run, v, n - 1);
      assert run.verdicts[..n][..n - 1] == run.verdicts[..n - 1];
    }
  }

  // ---- the summary ---------------------------------------------------------------------------

  /**
    The books of a run, at any time after it has counted: SENT in the store are those counted sent
    and those whose completion lost its answer; FAILED are those counted failed whose recording took
    effect; UNCERTAIN are those counted uncertain but for lost and still open ones, and those counted
    failed without a recording and given up since.
   */
  lemma Books(run: Run, r: Repository)
    requires RepoOk(r) && VerdictsOk(run, r) && CountersOk(run)
    ensures InStore(run, r, SENT) == run.sent + LostOnes(run, r)
    ensures InStore(run, r, FAILED) + UnrecordedOnes(run, r, Failed) == run.failed
    ensures InStore(run, r, UNCERTAIN) + LostOnes(run, r) + OpenOnes(run, r, Uncertain)
         == run.uncertain + GivenUpOnes(run, r, Failed)
  {
    var n := |run.verdicts|;
    var no := (i: int) => false;
    TallyZero(no, n);
    assert run.verdicts[..n] == run.verdicts;
    CountingIsCount(run, Sent, n);
    CountingIsCount(run, Failed, n);
    CountingIsCount(run, Uncertain, n);
    forall i | 0 <= i < n
      ensures One(StoredAs(run, r, SENT, i)) == One(CountedAs(run, Sent, i)) + One(LostAt(run, r, i))
      ensures One(StoredAs(run, r, FAILED, i)) + One(Unrecorded(run, r, Failed, i)) == One(CountedAs(run, Failed, i))
      ensures One(StoredAs(run, r, UNCERTAIN, i)) + One(LostAt(run, r, i)) + One(Open(run, r, Uncertain, i))
           == One(CountedAs(run, Uncertain, i)) + One(GivenUp(run, r, Failed, i))
    {
      LeaseAgainstStore(run, r, i);
    }
    TallyBalance(i => StoredAs(run, r, SENT, i), no, no, i => CountedAs(run, Sent, i), i => LostAt(run, r, i), n);
    TallyBalance(i => StoredAs(run, r, FAILED, i), i => Unrecorded(run, r, Failed, i), no, i => CountedAs(run, Failed, i), no, n);
    TallyBalance(i => StoredAs(run, r, UNCERTAIN, i), i => LostAt(run, r, i), i => Open(run, r, Uncertain, i),
                 i => CountedAs(run, Uncertain, i), i => GivenUp(run, r, Failed, i), n);
  }

  /** The three counters of messages that were called, against the store. */
  predicate Agrees(run: Run, r: Repository) {
    (InStore(run, r, SENT), InStore(run, r, FAILED), InStore(run, r, UNCERTAIN)) == (run.sent, run.failed, run.uncertain)
  }

  /**
    The summary of a run against the store, for every run in every history. The number sent is right
    if and only if no completion of the run lost its answer; the number failed if and only if every
    recording of a refusal took effect; the number uncertain if and only if lost and open ones make
    up for refusals that were never recorded and then given up. All three are right if and only if
    no answer was lost, every refusal was recorded, and everything uncertain was recorded or given up.
   */
  lemma SummaryAgainstStore(history: seq<Event>, w: World, k: nat)
    requires Leads(START, history, w) && k < |w.runs|
    ensures
      var run, r := w.runs[k], w.repo;
      var n := |run.verdicts|;
      && (run.pc.Returned? ==> n == |run.leases|)
      && (InStore(run, r, SENT) == run.sent <==> forall i :: 0 <= i < n ==> !LostAt(run, r, i))
      && (InStore(run, r, FAILED) == run.failed <==> forall i :: 0 <= i < n ==> !Unrecorded(run, r, Failed, i))
      && (InStore(run, r, UNCERTAIN) == run.uncertain <==>
            LostOnes(run, r) + OpenOnes(run, r, Uncertain) == GivenUpOnes(run, r, Failed))
      && (Agrees(run, r) <==> forall i :: 0 <= i < n ==>
            !LostAt(run, r, i) && !Unrecorded(run, r, Failed, i) && !Open(run, r, Uncertain, i))
  {
    SettledForGood(START, history, w);
    var run, r := w.runs[k], w.repo;
    var n := |run.verdicts|;
    assert CountersOk(run) && VerdictsOk(run, r) && RepoOk(r);
    Books(run, r);
    NoneTallied(run, r);
  }

  lemma NoneTallied(run: Run, r: Repository)
    ensures
      var n := |run.verdicts|;
      && (LostOnes(run, r) == 0 <==> forall i :: 0 <= i < n ==> !LostAt(run, r, i))
      && (UnrecordedOnes(run, r, Failed) == 0 <==> forall i :: 0 <= i < n ==> !Unrecorded(run, r, Failed, i))
      && (OpenOnes(run, r, Uncertain) == 0 <==> forall i :: 0 <= i < n ==> !Open(run, r, Uncertain, i))
      && (UnrecordedOnes(run, r, Failed) == 0 ==> GivenUpOnes(run, r, Failed) == 0)
  {
    var n := |run.verdicts|;
    var lost, unrecorded := (i: int) => LostAt(run, r, i), (i: int) => Unrecorded(run, r, Failed, i);
    var open, givenUp := (i: int) => Open(run, r, Uncertain, i), (i: int) => GivenUp(run, r, Failed, i);
    TallyZero(lost, n);
    TallyZero(unrecorded, n);
    TallyZero(open, n);
    TallyZero(givenUp, n);
    assert LostOnes(run, r) == Tally(lost, n) && UnrecordedOnes(run, r, Failed) == Tally(unrecorded, n);
    assert OpenOnes(run, r, Uncertain) == Tally(open, n) && GivenUpOnes(run, r, Failed) == Tally(givenUp, n);
    assert forall i :: lost(i) == LostAt(run, r, i);
    assert forall i :: unrecorded(i) == Unrecorded(run, r, Failed, i);
    assert forall i :: open(i) == Open(run, r, Uncertain, i);
    assert forall i :: givenUp(i) ==> unrecorded(i);
  }

  // ---- histories in which they differ --------------------------------------------------------

  /** One run leases one intent and calls the provider for it. */
  function Opening(token: Token): seq<Event> {
    [NewIntent, Dispatch(token), Step(0, Leased([0], Heard)), Step(0, Began(None, Heard))]
  }

  function Leaser(token: Token): Run {
    Run(0, token, [0], Beginning, [], 0, 0, 0, 0)
  }

  function Begun(token: Token): Intent {
    Intent(LEASED, Some(token), LEASE_SECONDS, true)
  }

  /** The repository once the provider has answered. */
  function Answered(token: Token, reply: ProviderReply): Repository {
    Repository([Begun(token)], 0, [0], map[0 := 0], map[0 := reply], map[], {}, {})
  }

  /** The world after the first `n` events of the opening. */
  function OpeningWorld(token: Token, n: nat): World
    requires n <= 4
  {
    var created := START.(repo := START.repo.(intents := [Intent(PENDING, None, 0, false)]));
    if n == 0 then START
    else if n == 1 then created
    else if n == 2 then created.(runs := [Leaser(token).(pc := Leasing, leases := [])])
    else if n == 3 then World([Leaser(token)], START.repo.(intents := [Begun(token).(attempted := false)]))
    else World([Leaser(token).(pc := Calling(0))], Answered(token, Unknown).(replies := map[]))
  }

  lemma OpeningLease(token: Token)
    ensures Possible(OpeningWorld(token, 2), Step(0, Leased([0], Heard)))
    ensures After(OpeningWorld(token, 2), Step(0, Leased([0], Heard))) == OpeningWorld(token, 3)
  {
    var leased := Lease(OpeningWorld(token, 2).repo, token, [0]);
    assert leased.intents == OpeningWorld(token, 3).repo.intents && leased.expired == {};
  }

  lemma OpeningBegin(token: Token)
    ensures Possible(OpeningWorld(token, 3), Step(0, Began(None, Heard)))
    ensures After(OpeningWorld(token, 3), Step(0, Began(None, Heard))) == OpeningWorld(token, 4)
  {
  }

  ghost predicate Link(w: World, e: Event, next: World) {
    Possible(w, e) && After(w, e) == next
  }

  /** A history that goes through the given worlds. */
  ghost predicate Through(history: seq<Event>, worlds: seq<World>) {
    |worlds| == |history| + 1 && forall n :: 0 <= n < |history| ==> Link(worlds[n], history[n], worlds[n + 1])
  }

  lemma {:induction false} ThroughLeads(history: seq<Event>, worlds: seq<World>)
    requires Through(history, worlds)
    ensures Leads(worlds[0], history, worlds[|history|])
    decreases |history|
  {
    if history != [] {
      assert Link(worlds[0], history[0], worlds[1]);
      ThroughLeads(history[1..], worlds[1..]);
    }
  }

  lemma OpeningThrough(token: Token)
    ensures Through(Opening(token), [OpeningWorld(token, 0), OpeningWorld(token, 1), OpeningWorld(token, 2),
                                     OpeningWorld(token, 3), OpeningWorld(token, 4)])
  {
    OpeningLease(token);
    OpeningBegin(token);
  }

  lemma {:induction false} LeadsOn(w: World, a: seq<Event>, mid: World, b: seq<Event>, w': World)
    requires Leads(w, a, mid) && Leads(mid, b, w')
    ensures Leads(w, a + b, w')
    decreases |a|
  {
    if a == [] {
      assert a + b == b;
    } else {
      LeadsOn(After(w, a[0]), a[1..], mid, b, w');
      assert (a + b)[1..] == a[1..] + b;
    }
  }

  lemma OpeningLeads(token: Token)
    ensures Leads(START, Opening(token), OpeningWorld(token, 4))
  {
    OpeningThrough(token);
    ThroughLeads(Opening(token), [OpeningWorld(token, 0), OpeningWorld(token, 1), OpeningWorld(token, 2),
                                  OpeningWorld(token, 3), OpeningWorld(token, 4)]);
  }

  lemma AnswerStep(token: Token, reply: ProviderReply)
    ensures Possible(OpeningWorld(token, 4), Step(0, Replied(reply)))
    ensures
      var outcome := if reply.Accepted? then SENT else if Deterministic(reply) then FAILED else UNCERTAIN;
      After(OpeningWorld(token, 4), Step(0, Replied(reply)))
        == World([Leaser(token).(pc := Completing(0, outcome))], Answered(token, reply))
  {
  }

  // ---- sent, but counted uncertain -----------------------------------------------------------

  function LostRepo(token: Token, reply: string): Repository {
    Answered(token, Accepted(reply)).(intents := [Intent(SENT, None, LEASE_SECONDS, true)], recorded := map[0 := SENT], lost := {0})
  }

  function CountedUncertain(token: Token): Run {
    Leaser(token).(pc := Returned, verdicts := [Uncertain], uncertain := 1)
  }

  lemma LostCompletion(token: Token, reply: string)
    ensures
      var w := World([Leaser(token).(pc := Completing(0, SENT))], Answered(token, Accepted(reply)));
      && Possible(w, Step(0, Stored(Lost)))
      && After(w, Step(0, Stored(Lost))) == World([Leaser(token).(pc := Completing(0, UNCERTAIN))], LostRepo(token, reply))
  {
  }

  lemma LostRecording(token: Token, reply: string)
    ensures
      var w := World([Leaser(token).(pc := Completing(0, UNCERTAIN))], LostRepo(token, reply));
      && Possible(w, Step(0, Stored(Heard)))
      && After(w, Step(0, Stored(Heard))) == World([CountedUncertain(token)], LostRepo(token, reply))
  {
    assert [] + [Uncertain] == [Uncertain];
  }

  /**
    The completion of an accepted message is carried out and its answer is lost; recording the
    message as uncertain is refused; the run reports one uncertain message and none sent, and the
    message is SENT.
   */
  lemma SentButCountedUncertain(token: Token, reply: string)
    ensures
      var w := World([CountedUncertain(token)], LostRepo(token, reply));
      && Leads(START, Opening(token) + [Step(0, Replied(Accepted(reply))), Step(0, Stored(Lost)), Step(0, Stored(Heard))], w)
      && w.runs[0].sent == 0 && w.runs[0].uncertain == 1 && w.repo.intents[0].status == SENT
      && InStore(w.runs[0], w.repo, SENT) == 1 && !Agrees(w.runs[0], w.repo)
  {
    var w4, w5 := OpeningWorld(token, 4), World([Leaser(token).(pc := Completing(0, SENT))], Answered(token, Accepted(reply)));
    var w6 := World([Leaser(token).(pc := Completing(0, UNCERTAIN))], LostRepo(token, reply));
    var w := World([CountedUncertain(token)], LostRepo(token, reply));
    var rest := [Step(0, Replied(Accepted(reply))), Step(0, Stored(Lost)), Step(0, Stored(Heard))];
    OpeningLeads(token);
    AnswerStep(token, Accepted(reply));
    LostCompletion(token, reply);
    LostRecording(token, reply);
    ThroughLeads(rest, [w4, w5, w6, w]);
    LeadsOn(START, Opening(token), w4, rest, w);
    OneStored(w.runs[0], w.repo, SENT);
  }

  lemma OneStored(run: Run, r: Repository, s: Status)
    requires |run.verdicts| == 1 && StoredAs(run, r, s, 0)
    ensures InStore(run, r, s) == 1
  {
    assert Tally(i => StoredAs(run, r, s, i), 0) == 0;
  }

  // ---- counted failed or uncertain, but not recorded -----------------------------------------

  function VerdictFor(reply: ProviderReply): Verdict {
    if Deterministic(reply) then Failed else Uncertain
  }

  /** The run after a provider answer that is no acceptance, and a recording without effect. */
  function CountedAnyway(token: Token, reply: ProviderReply): Run {
    Leaser(token).(pc := Returned, verdicts := [VerdictFor(reply)],
                   failed := One(Deterministic(reply)), uncertain := One(!Deterministic(reply)))
  }

  /** The same repository after another run has leased nothing, past the lease. */
  function GivenUpRepo(token: Token, reply: ProviderReply): Repository {
    Answered(token, reply).(intents := [Intent(UNCERTAIN, None, LEASE_SECONDS, true)], now := LEASE_SECONDS + 1, expired := {0})
  }

  lemma RefusedRecording(token: Token, reply: ProviderReply)
    requires !reply.Accepted?
    ensures
      var outcome := if Deterministic(reply) then FAILED else UNCERTAIN;
      var w := World([Leaser(token).(pc := Completing(0, outcome))], Answered(token, reply));
      && Possible(w, Step(0, Stored(Refused)))
      && After(w, Step(0, Stored(Refused))) == World([CountedAnyway(token, reply)], Answered(token, reply))
  {
    assert [] + [VerdictFor(reply)] == [VerdictFor(reply)];
  }

  lemma NextLease(token: Token, reply: ProviderReply, other: Run)
    requires other == Run(1, token, [], Leasing, [], 0, 0, 0, 0)
    ensures
      var w := World([CountedAnyway(token, reply), other], Answered(token, reply).(now := LEASE_SECONDS + 1));
      && Possible(w, Step(1, Leased([], Heard)))
      && After(w, Step(1, Leased([], Heard)))
           == World([CountedAnyway(token, reply), other.(pc := Returned)], GivenUpRepo(token, reply))
  {
    var r := Answered(token, reply).(now := LEASE_SECONDS + 1);
    var leased := Lease(r, token, []);
    assert leased.intents == GivenUpRepo(token, reply).intents && leased.expired == {0};
  }

  function RefusedHistory(token: Token, reply: ProviderReply): seq<Event> {
    Opening(token) + [Step(0, Replied(reply)), Step(0, Stored(Refused))]
  }

  function LaterLease(token: Token): seq<Event> {
    [Tick(LEASE_SECONDS + 1), Dispatch(token), Step(1, Leased([], Heard))]
  }

  lemma RefusedLeads(token: Token, reply: ProviderReply)
    requires !reply.Accepted?
    ensures Leads(START, RefusedHistory(token, reply), World([CountedAnyway(token, reply)], Answered(token, reply)))
  {
    var outcome := if Deterministic(reply) then FAILED else UNCERTAIN;
    var w4, w5 := OpeningWorld(token, 4), World([Leaser(token).(pc := Completing(0, outcome))], Answered(token, reply));
    var w6 := World([CountedAnyway(token, reply)], Answered(token, reply));
    OpeningLeads(token);
    AnswerStep(token, reply);
    RefusedRecording(token, reply);
    ThroughLeads([Step(0, Replied(reply)), Step(0, Stored(Refused))], [w4, w5, w6]);
    LeadsOn(START, Opening(token), w4, [Step(0, Replied(reply)), Step(0, Stored(Refused))], w6);
  }

  lemma LaterLeads(token: Token, reply: ProviderReply)
    ensures
      var other := Run(1, token, [], Returned, [], 0, 0, 0, 0);
      Leads(World([CountedAnyway(token, reply)], Answered(token, reply)), LaterLease(token),
            World([CountedAnyway(token, reply), other], GivenUpRepo(token, reply)))
  {
    var run, other := CountedAnyway(token, reply), Run(1, token, [], Leasing, [], 0, 0, 0, 0);
    var late := Answered(token, reply).(now := LEASE_SECONDS + 1);
    NextLease(token, reply, other);
    ThroughLeads(LaterLease(token), [World([run], Answered(token, reply)), World([run], late), World([run, other], late),
                                     World([run, other.(pc := Returned)], GivenUpRepo(token, reply))]);
  }

  lemma NoneStored(run: Run, r: Repository, s: Status)
    requires |run.verdicts| == 1 && !StoredAs(run, r, s, 0)
    ensures InStore(run, r, s) == 0
  {
    assert Tally(i => StoredAs(run, r, s, i), 0) == 0;
  }

  /**
    The provider refuses a message with a 4xx and recording that has no effect: the run reports one
    failed message and no answer was lost, but the message is LEASED, and after the next lease call
    past its time UNCERTAIN; the store never holds it as FAILED.
   */
  lemma FailedButNotStored(token: Token, status: nat)
    requires 400 <= status < 500
    ensures
      var reply := HttpStatus(status);
      var run, other := CountedAnyway(token, reply), Run(1, token, [], Returned, [], 0, 0, 0, 0);
      var w, later := World([run], Answered(token, reply)), World([run, other], GivenUpRepo(token, reply));
      && Leads(START, RefusedHistory(token, reply), w) && Leads(START, RefusedHistory(token, reply) + LaterLease(token), later)
      && run.pc.Returned? && run.failed == 1 && w.repo.lost == later.repo.lost == {}
      && w.repo.intents[0].status == LEASED && later.repo.intents[0].status == UNCERTAIN
      && InStore(run, w.repo, FAILED) == 0 == InStore(run, later.repo, FAILED)
      && !Agrees(run, w.repo) && !Agrees(run, later.repo)
  {
    var reply := HttpStatus(status);
    var run := CountedAnyway(token, reply);
    var w := World([run], Answered(token, reply));
    RefusedLeads(token, reply);
    LaterLeads(token, reply);
    LeadsOn(START, RefusedHistory(token, reply), w, LaterLease(token),
            World([run, Run(1, token, [], Returned, [], 0, 0, 0, 0)], GivenUpRepo(token, reply)));
    NoneStored(run, Answered(token, reply), FAILED);
    NoneStored(run, GivenUpRepo(token, reply), FAILED);
  }

  /**
    The provider's answer is not known and recording that has no effect: the run reports one
    uncertain message while it is LEASED; the next lease call past its time makes the report true.
   */
  lemma UncertainButLeased(token: Token)
    ensures
      var run, other := CountedAnyway(token, Unknown), Run(1, token, [], Returned, [], 0, 0, 0, 0);
      var w, later := World([run], Answered(token, Unknown)), World([run, other], GivenUpRepo(token, Unknown));
      && Leads(START, RefusedHistory(token, Unknown), w) && Leads(START, RefusedHistory(token, Unknown) + LaterLease(token), later)
      && run.pc.Returned? && run.uncertain == 1 && w.repo.intents[0].status == LEASED
      && InStore(run, w.repo, UNCERTAIN) == 0 && !Agrees(run, w.repo) && Agrees(run, later.repo)
  {
    var run := CountedAnyway(token, Unknown);
    var w := World([run], Answered(token, Unknown));
    RefusedLeads(token, Unknown);
    LaterLeads(token, Unknown);
    LeadsOn(START, RefusedHistory(token, Unknown), w, LaterLease(token),
            World([run, Run(1, token, [], Returned, [], 0, 0, 0, 0)], GivenUpRepo(token, Unknown)));
    NoneStored(run, Answered(token, Unknown), UNCERTAIN);
    OneStored(run, GivenUpRepo(token, Unknown), UNCERTAIN);
    NoneStored(run, GivenUpRepo(token, Unknown), SENT);
    NoneStored(run, GivenUpRepo(token, Unknown), FAILED);
  }
}
