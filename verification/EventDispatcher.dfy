/**
  The leased dispatcher of automatic WhatsApp messages. Runs may overlap, leases expire, and the
  reply of any repository call may get lost; `attempted` is the durable attempt marker.
 */
module EventDispatcher {
  import opened Wrappers
  import Sorting

  type IntentId = nat
  type Token = string

  const LEASE_LIMIT := 25
  const LEASE_SECONDS := 60

  datatype Status = PENDING | LEASED | SENT | FAILED | UNCERTAIN | CANCELLED

  datatype Intent = Intent(status: Status, token: Option<Token>, leaseUntil: int, attempted: bool)

  /** What the provider answered, as far as the dispatcher learns it. */
  datatype ProviderReply = Accepted(id: string) | HttpStatus(status: nat) | Unknown

  datatype Delivery = Heard | Lost | Refused

  /**
    `calls` lists the provider calls in time order, `callers` the run that made each, and `replies`
    what they were answered with. `recorded` holds the completions that took effect, `lost` those of
    them as SENT whose answer was lost, and `expired` the intents that a lease call gave up.
   */
  datatype Repository = Repository(intents: seq<Intent>, now: int, calls: seq<IntentId>, callers: map<IntentId, nat>,
                                   replies: map<IntentId, ProviderReply>, recorded: map<IntentId, Status>,
                                   lost: set<IntentId>, expired: set<IntentId>)

  // ---- the repository ------------------------------------------------------------------------

  predicate Due(i: Intent, now: int) {
    i.status.PENDING? || (i.status.LEASED? && i.leaseUntil < now && !i.attempted)
  }

  predicate Overdue(i: Intent, now: int) {
    i.status.LEASED? && i.leaseUntil < now && i.attempted
  }

  function Expire(i: Intent, now: int): Intent {
    if Overdue(i, now) then Intent(UNCERTAIN, None, i.leaseUntil, true) else i
  }

  /** The store picks at most the limit of the due intents; rows locked by another run are skipped. */
  predicate CanLease(r: Repository, ids: seq<IntentId>) {
    |ids| <= LEASE_LIMIT && Sorting.Distinct(ids) && forall id :: id in ids ==> id < |r.intents| && Due(r.intents[id], r.now)
  }

  function Lease(r: Repository, token: Token, ids: seq<IntentId>): Repository
    requires CanLease(r, ids)
  {
    r.(intents := seq(|r.intents|, i requires 0 <= i < |r.intents| =>
      if i in ids then Intent(LEASED, Some(token), r.now + LEASE_SECONDS, r.intents[i].attempted)
      else Expire(r.intents[i], r.now)),
       expired := r.expired + set i | 0 <= i < |r.intents| && i !in ids && Overdue(r.intents[i], r.now))
  }

  predicate Held(i: Intent, token: Token) {
    i.status.LEASED? && i.token == Some(token)
  }

  predicate CanBegin(r: Repository, id: IntentId, token: Token) {
    id < |r.intents| && Held(r.intents[id], token) && r.intents[id].leaseUntil >= r.now && !r.intents[id].attempted
  }

  /** `blocked` says how an ineligible intent ends: cancelled, or uncertain on a message conflict. */
  function Begin(r: Repository, id: IntentId, blocked: Option<Status>): Repository
    requires id < |r.intents|
  {
    var i := r.intents[id];
    r.(intents := r.intents[id := if blocked.Some? then Intent(blocked.value, None, i.leaseUntil, false) else i.(attempted := true)])
  }

  /** Run number `n` calls the provider for the intent. */
  function Called(r: Repository, id: IntentId, n: nat): Repository {
    r.(calls := r.calls + [id], callers := r.callers[id := n])
  }

  predicate CanComplete(r: Repository, id: IntentId, token: Token) {
    id < |r.intents| && Held(r.intents[id], token) && r.intents[id].attempted
  }

  function Complete(r: Repository, id: IntentId, token: Token, outcome: Status): Repository {
    if CanComplete(r, id, token)
    then r.(intents := r.intents[id := Intent(outcome, None, r.intents[id].leaseUntil, true)],
            recorded := r.recorded[id := outcome])
    else r
  }

  /** A completion call that may fail, or take effect with its answer lost. */
  function Delivered(r: Repository, id: IntentId, token: Token, outcome: Status, delivery: Delivery): Repository {
    var r' := if delivery.Refused? then r else Complete(r, id, token, outcome);
    if outcome.SENT? && delivery.Lost? && CanComplete(r, id, token) then r'.(lost := r'.lost + {id}) else r'
  }

  // ---- a dispatch run ------------------------------------------------------------------------

  datatype Verdict = Sent | Failed | Uncertain | Skipped

  datatype Pc =
    | Leasing
    | Beginning
    | Calling(id: IntentId)
    | Completing(id: IntentId, outcome: Status)
    | Returned
    | Aborted

  /** `verdicts` is how each lease handled so far was counted; runs are numbered as they start. */
  datatype Run = Run(number: nat, token: Token, leases: seq<IntentId>, pc: Pc, verdicts: seq<Verdict>,
                     sent: nat, failed: nat, uncertain: nat, skipped: nat)

  /** Only a 4xx status is a definite refusal here; the interactive path takes any status from 400 on. */
  predicate Deterministic(reply: ProviderReply) {
    reply.HttpStatus? && 400 <= reply.status < 500
  }

  /** Count one lease and go on to the next, or return. */
  function Counted(run: Run, v: Verdict): Run {
    var verdicts := run.verdicts + [v];
    run.(verdicts := verdicts,
         sent := run.sent + if v.Sent? then 1 else 0,
         failed := run.failed + if v.Failed? then 1 else 0,
         uncertain := run.uncertain + if v.Uncertain? then 1 else 0,
         skipped := run.skipped + if v.Skipped? then 1 else 0,
         pc := if |verdicts| < |run.leases| then Beginning else Returned)
  }

  datatype Answer =
    | Leased(ids: seq<IntentId>, delivery: Delivery)
    | Began(blocked: Option<Status>, delivery: Delivery)
    | Replied(reply: ProviderReply)
    | Stored(delivery: Delivery)

  predicate Accepts(run: Run, r: Repository, a: Answer) {
    match run.pc
    case Leasing => a.Leased? && CanLease(r, a.ids)
    case Beginning => a.Began? && |run.verdicts| < |run.leases|
                      && (a.blocked.Some? ==> a.blocked.value.CANCELLED? || a.blocked.value.UNCERTAIN?)
    case Calling(_) => a.Replied?
    case Completing(_, _) => a.Stored?
    case _ => false
  }

  function Turn(run: Run, r: Repository, a: Answer): (Run, Repository)
    requires Accepts(run, r, a)
  {
    match run.pc
    case Leasing =>
      var r' := if a.delivery.Refused? then r else Lease(r, run.token, a.ids);
      if a.delivery.Heard?
      then (run.(leases := a.ids, pc := if a.ids == [] then Returned else Beginning), r')
      else (run.(pc := Aborted), r')
    case Beginning =>
      var id := run.leases[|run.verdicts|];
      var begins := !a.delivery.Refused? && CanBegin(r, id, run.token);
      var r' := if begins then Begin(r, id, a.blocked) else r;
      if !a.delivery.Heard? then (run.(pc := Aborted), r')
      else if begins && a.blocked.None? then (run.(pc := Calling(id)), Called(r', id, run.number))
      else (Counted(run, Skipped), r')
    case Calling(id) =>
      (run.(pc := Completing(id, if a.reply.Accepted? then SENT else if Deterministic(a.reply) then FAILED else UNCERTAIN)),
       r.(replies := r.replies[id := a.reply]))
    case Completing(id, outcome) =>
      var r' := Delivered(r, id, run.token, outcome, a.delivery);
      var acknowledged := a.delivery.Heard? && CanComplete(r, id, run.token);
      if outcome.SENT? && !acknowledged then (run.(pc := Completing(id, UNCERTAIN)), r')
      else (Counted(run, if outcome.SENT? then Sent else if outcome.FAILED? then Failed else Uncertain), r')
  }

  // ---- all runs together ---------------------------------------------------------------------

  datatype World = World(runs: seq<Run>, repo: Repository)

  datatype Event = NewIntent | Dispatch(token: Token) | Step(k: nat, a: Answer) | Tick(now: int)

  predicate Possible(w: World, e: Event) {
    match e
    case NewIntent => true
    case Dispatch(_) => true
    case Step(k, a) => k < |w.runs| && Accepts(w.runs[k], w.repo, a)
    case Tick(now) => w.repo.now <= now
  }

  function After(w: World, e: Event): World
    requires Possible(w, e)
  {
    match e
    case NewIntent => w.(repo := w.repo.(intents := w.repo.intents + [Intent(PENDING, None, 0, false)]))
    case Dispatch(token) => w.(runs := w.runs + [Run(|w.runs|, token, [], Leasing, [], 0, 0, 0, 0)])
    case Step(k, a) =>
      var (run, repo) := Turn(w.runs[k], w.repo, a);
      World(w.runs[k := run], repo)
    case Tick(now) => w.(repo := w.repo.(now := now))
  }

  const START := World([], Repository([], 0, [], map[], map[], map[], {}, {}))

  function Busy(pc: Pc): Option<IntentId> {
    match pc
    case Calling(id) => Some(id)
    case Completing(id, _) => Some(id)
    case _ => None
  }

  function Count(vs: seq<Verdict>, v: Verdict): nat {
    if vs == [] then 0 else Count(vs[..|vs| - 1], v) + if vs[|vs| - 1] == v then 1 else 0
  }

  predicate CountersOk(run: Run) {
    && run.sent == Count(run.verdicts, Sent) && run.failed == Count(run.verdicts, Failed)
    && run.uncertain == Count(run.verdicts, Uncertain) && run.skipped == Count(run.verdicts, Skipped)
    && |run.verdicts| == run.sent + run.failed + run.uncertain + run.skipped
    && |run.verdicts| <= |run.leases| <= LEASE_LIMIT && Sorting.Distinct(run.leases)
    && (run.pc.Returned? ==> |run.verdicts| == |run.leases|)
    && (run.pc.Beginning? || Busy(run.pc).Some? ==> |run.verdicts| < |run.leases|)
    && (run.pc.Leasing? ==> run.leases == [])
  }

  predicate Mine(run: Run, r: Repository, id: IntentId) {
    id in r.callers && r.callers[id] == run.number
  }

  /** The provider's answer is a status from 400 to 499. */
  ghost predicate Refuses(reply: ProviderReply) {
    reply.HttpStatus? && 400 <= reply.status && reply.status < 500
  }

  predicate IsSent(r: Repository, id: IntentId) {
    id < |r.intents| && r.intents[id].status.SENT?
  }

  /** Where a run stands with the lease it is handling. */
  ghost predicate BusyOk(run: Run, r: Repository) {
    Busy(run.pc).Some? ==>
      var id := Busy(run.pc).value;
      && |run.verdicts| < |run.leases| && id == run.leases[|run.verdicts|]
      && Mine(run, r, id) && id < |r.intents|
      && (run.pc.Calling? ==> id !in r.replies)
      && (run.pc.Completing? ==>
            && id in r.replies
            && match run.pc.outcome
               case SENT => r.replies[id].Accepted? && !IsSent(r, id)
               case FAILED => Refuses(r.replies[id])
               case UNCERTAIN => !Refuses(r.replies[id]) && (IsSent(r, id) <==> id in r.lost)
               case _ => false)
  }

  function Handled(run: Run): nat {
    |run.verdicts| + if Busy(run.pc).Some? then 1 else 0
  }

  /** The leases that the run has not come to yet are not called by it. */
  ghost predicate LeasesOk(run: Run, r: Repository) {
    && (forall i :: 0 <= i < |run.leases| ==> run.leases[i] < |r.intents|)
    && (forall i :: Handled(run) <= i < |run.leases| ==> !Mine(run, r, run.leases[i]))
  }

  ghost predicate RunOk(run: Run, r: Repository) {
    CountersOk(run) && LeasesOk(run, r) && BusyOk(run, r)
  }

  /**
    What a verdict means. A lease is counted skipped exactly if this run did not call the provider
    for it, and failed exactly if the provider answered this run's call with a 4xx. The intents of
    this run's other calls are SENT exactly if they were counted sent, or their completion was
    carried out with its answer lost, in which case they were counted uncertain.
   */
  ghost predicate VerdictOk(run: Run, r: Repository, id: IntentId, v: Verdict) {
    && id < |r.intents|
    && (v.Skipped? <==> !Mine(run, r, id))
    && (Mine(run, r, id) ==>
          && id in r.replies && (v.Failed? <==> Refuses(r.replies[id]))
          && (IsSent(r, id) <==> v.Sent? || id in r.lost)
          && (id in r.lost ==> v.Uncertain?))
  }

  ghost predicate VerdictsOk(run: Run, r: Repository) {
    && |run.verdicts| <= |run.leases|
    && forall i :: 0 <= i < |run.verdicts| ==> VerdictOk(run, r, run.leases[i], run.verdicts[i])
  }

  ghost predicate IntentOk(r: Repository, id: IntentId)
    requires id < |r.intents|
  {
    var i := r.intents[id];
    && (i.attempted ==> !i.status.PENDING? && !i.status.CANCELLED?)
    && (i.status.FAILED? ==> id in r.replies && Refuses(r.replies[id]))
    && (i.status.SENT? ==> id in r.replies && r.replies[id].Accepted?)
  }

  /** A completion that took effect agrees with the provider's answer. */
  ghost predicate RecordOk(r: Repository, id: IntentId) {
    id in r.recorded ==>
      && id in r.replies
      && match r.recorded[id]
         case SENT => r.replies[id].Accepted?
         case FAILED => Refuses(r.replies[id])
         case UNCERTAIN => !Refuses(r.replies[id])
         case _ => false
  }

  /** The status of a called intent: what was recorded, else uncertain once its lease was given up. */
  ghost predicate Explained(r: Repository, id: IntentId) {
    id in r.callers ==>
      id < |r.intents|
      && r.intents[id].status == if id in r.recorded then r.recorded[id] else if id in r.expired then UNCERTAIN else LEASED
  }

  ghost predicate RecordsOk(r: Repository) {
    && (forall id: IntentId :: RecordOk(r, id) && Explained(r, id))
    && (forall id :: id in r.expired ==> id < |r.intents| && r.intents[id].attempted)
  }

  ghost predicate CallsOk(r: Repository) {
    && Sorting.Distinct(r.calls)
    && (forall id :: id in r.calls ==> id < |r.intents| && r.intents[id].attempted)
    && (forall id :: id in r.callers <==> id in r.calls)
    && (forall id :: id in r.replies ==> id in r.calls)
    && (forall id :: id in r.lost ==> IsSent(r, id))
  }

  ghost predicate RepoOk(r: Repository) {
    CallsOk(r) && RecordsOk(r) && forall id :: 0 <= id < |r.intents| ==> IntentOk(r, id)
  }

  ghost predicate WorldOk(w: World) {
    && RepoOk(w.repo)
    && forall k :: 0 <= k < |w.runs| ==> w.runs[k].number == k && RunOk(w.runs[k], w.repo) && VerdictsOk(w.runs[k], w.repo)
  }

  predicate Terminal(s: Status) {
    s.SENT? || s.FAILED? || s.UNCERTAIN? || s.CANCELLED?
  }

  /** Markers and settled statuses are never taken back. */
  ghost predicate Grows(r: Repository, r': Repository) {
    && |r.intents| <= |r'.intents|
    && forall id :: 0 <= id < |r.intents| ==>
         && (r.intents[id].attempted ==> r'.intents[id].attempted)
         && (Terminal(r.intents[id].status) ==> r'.intents[id].status == r.intents[id].status)
  }

  predicate SameRecord(r: Repository, r': Repository, id: IntentId) {
    && (id in r'.callers <==> id in r.callers) && (id in r.callers ==> r'.callers[id] == r.callers[id])
    && (id in r'.replies <==> id in r.replies) && (id in r.replies ==> r'.replies[id] == r.replies[id])
    && (id in r'.lost <==> id in r.lost) && (IsSent(r', id) <==> IsSent(r, id))
  }

  /** Only `t` is called, answered, sent or lost, and it is run number `n` that does so. */
  ghost predicate OnlyTouches(r: Repository, r': Repository, t: Option<IntentId>, n: nat) {
    && |r.intents| <= |r'.intents|
    && (forall id: IntentId :: Some(id) != t ==> SameRecord(r, r', id))
    && (t.Some? ==> t.value in r'.callers && r'.callers[t.value] == n && (t.value in r.callers ==> r.callers[t.value] == n))
  }

  lemma OthersUnaffected(run: Run, r: Repository, r': Repository, t: Option<IntentId>, n: nat)
    requires RunOk(run, r) && VerdictsOk(run, r) && OnlyTouches(r, r', t, n) && run.number != n
    ensures RunOk(run, r') && VerdictsOk(run, r')
  {
    if Busy(run.pc).Some? { assert SameRecord(r, r', Busy(run.pc).value); }
    forall i | Handled(run) <= i < |run.leases| ensures !Mine(run, r', run.leases[i]) {
      assert Some(run.leases[i]) != t ==> SameRecord(r, r', run.leases[i]);
    }
    forall i | 0 <= i < |run.verdicts| ensures VerdictOk(run, r', run.leases[i], run.verdicts[i]) {
      assert VerdictOk(run, r, run.leases[i], run.verdicts[i]);
      assert Some(run.leases[i]) != t ==> SameRecord(r, r', run.leases[i]);
    }
  }

  /** What a run has counted, and what it has not come to, stands when the lease it is handling is touched. */
  lemma OwnVerdictsStand(run: Run, r: Repository, r': Repository, t: Option<IntentId>)
    requires CountersOk(run) && LeasesOk(run, r) && VerdictsOk(run, r) && OnlyTouches(r, r', t, run.number)
    requires t.Some? ==> |run.verdicts| < |run.leases| && t.value == run.leases[|run.verdicts|]
    ensures VerdictsOk(run, r')
    ensures forall i :: Handled(run) <= i < |run.leases| && (t.Some? ==> |run.verdicts| < i) ==> !Mine(run, r', run.leases[i])
  {
    forall i | Handled(run) <= i < |run.leases| && (t.Some? ==> |run.verdicts| < i) ensures !Mine(run, r', run.leases[i]) {
      assert SameRecord(r, r', run.leases[i]);
    }
    forall i | 0 <= i < |run.verdicts| ensures VerdictOk(run, r', run.leases[i], run.verdicts[i]) {
      assert VerdictOk(run, r, run.leases[i], run.verdicts[i]);
      assert SameRecord(r, r', run.leases[i]);
    }
  }

  lemma CountedOk(run: Run, v: Verdict)
    requires CountersOk(run) && |run.verdicts| < |run.leases|
    ensures CountersOk(Counted(run, v))
  {
    var vs := run.verdicts + [v];
    assert vs[..|run.verdicts|] == run.verdicts;
  }

  lemma CountedVerdicts(run: Run, r: Repository, v: Verdict)
    requires VerdictsOk(run, r) && |run.verdicts| < |run.leases| && VerdictOk(run, r, run.leases[|run.verdicts|], v)
    ensures VerdictsOk(Counted(run, v), r)
  {
    var run' := Counted(run, v);
    forall i | 0 <= i < |run'.verdicts| ensures VerdictOk(run', r, run'.leases[i], run'.verdicts[i]) {
      assert i < |run.verdicts| ==> VerdictOk(run, r, run.leases[i], run.verdicts[i]);
    }
  }

  /** What one turn of a run keeps, and the one intent it may touch. */
  ghost predicate TurnGood(run: Run, r: Repository, run': Run, r': Repository, t: Option<IntentId>) {
    && RepoOk(r') && RunOk(run', r') && VerdictsOk(run', r') && run'.number == run.number
    && Grows(r, r') && OnlyTouches(r, r', t, run.number)
  }

  // ---- leasing and beginning -----------------------------------------------------------------

  lemma LeaseKeepsRecords(r: Repository, token: Token, ids: seq<IntentId>)
    requires RepoOk(r) && CanLease(r, ids)
    ensures RecordsOk(Lease(r, token, ids))
  {
    var r' := Lease(r, token, ids);
    forall id: IntentId ensures RecordOk(r', id) && Explained(r', id) {
      assert RecordOk(r, id) && Explained(r, id);
      assert id in ids ==> !r.intents[id].attempted by {
        if id in ids { assert IntentOk(r, id); }
      }
    }
  }

  lemma LeaseKeepsRepo(r: Repository, token: Token, ids: seq<IntentId>)
    requires RepoOk(r) && CanLease(r, ids)
    ensures RepoOk(Lease(r, token, ids)) && Grows(r, Lease(r, token, ids)) && OnlyTouches(r, Lease(r, token, ids), None, 0)
  {
    var r' := Lease(r, token, ids);
    LeaseKeepsRecords(r, token, ids);
    forall id | 0 <= id < |r'.intents| ensures IntentOk(r', id) { assert IntentOk(r, id); }
    forall id: IntentId ensures SameRecord(r, r', id) {}
  }

  lemma LeaseGood(run: Run, r: Repository, a: Answer)
    requires RepoOk(r) && RunOk(run, r) && VerdictsOk(run, r) && run.pc.Leasing? && Accepts(run, r, a)
    ensures TurnGood(run, r, Turn(run, r, a).0, Turn(run, r, a).1, None)
  {
    if !a.delivery.Refused? { LeaseKeepsRepo(r, run.token, a.ids); }
    forall i | 0 <= i < |a.ids| ensures a.ids[i] < |r.intents| && a.ids[i] !in r.callers {
      assert a.ids[i] in a.ids && IntentOk(r, a.ids[i]);
    }
  }

  lemma BeginKeepsIntents(r: Repository, id: IntentId, token: Token, blocked: Option<Status>)
    requires RepoOk(r) && CanBegin(r, id, token) && (blocked.Some? ==> blocked.value.CANCELLED? || blocked.value.UNCERTAIN?)
    ensures id !in r.calls && forall k :: 0 <= k < |r.intents| ==> IntentOk(Begin(r, id, blocked), k)
    ensures CallsOk(Begin(r, id, blocked)) && RecordsOk(Begin(r, id, blocked)) && id !in r.expired
  {
    var r' := Begin(r, id, blocked);
    forall k | 0 <= k < |r'.intents| ensures IntentOk(r', k) { assert IntentOk(r, k); }
    forall k: IntentId ensures RecordOk(r', k) && Explained(r', k) { assert RecordOk(r, k) && Explained(r, k); }
  }

  lemma BeginGrows(r: Repository, id: IntentId, token: Token, blocked: Option<Status>, n: nat)
    requires CanBegin(r, id, token) && (blocked.Some? ==> blocked.value.CANCELLED? || blocked.value.UNCERTAIN?)
    ensures Grows(r, Begin(r, id, blocked))
    ensures OnlyTouches(r, Begin(r, id, blocked), None, n)
  {
    var r' := Begin(r, id, blocked);
    forall k: IntentId ensures SameRecord(r, r', k) {}
  }

  lemma CalledGood(r: Repository, id: IntentId, n: nat)
    requires RepoOk(r) && id !in r.calls && id < |r.intents| && r.intents[id].attempted
    requires r.intents[id].status.LEASED? && id !in r.expired
    ensures RepoOk(Called(r, id, n)) && OnlyTouches(r, Called(r, id, n), Some(id), n) && Grows(r, Called(r, id, n))
  {
    var r' := Called(r, id, n);
    forall k: IntentId ensures RecordOk(r', k) && Explained(r', k) { assert RecordOk(r, k) && Explained(r, k); }
    forall k | 0 <= k < |r'.intents| ensures IntentOk(r', k) { assert IntentOk(r, k); }
    forall k: IntentId | k != id ensures SameRecord(r, r', k) {}
  }

  lemma TouchesTogether(r: Repository, r1: Repository, r2: Repository, t: Option<IntentId>, n: nat)
    requires Grows(r, r1) && Grows(r1, r2) && OnlyTouches(r, r1, None, n) && OnlyTouches(r1, r2, t, n)
    ensures Grows(r, r2) && OnlyTouches(r, r2, t, n)
  {
    forall id: IntentId | Some(id) != t ensures SameRecord(r, r2, id) {
      assert SameRecord(r, r1, id) && SameRecord(r1, r2, id);
    }
    if t.Some? { assert SameRecord(r, r1, t.value); }
  }

  lemma SkippedIsMeant(run: Run, r: Repository)
    requires RunOk(run, r) && VerdictsOk(run, r) && run.pc.Beginning?
    ensures RunOk(Counted(run, Skipped), r) && VerdictsOk(Counted(run, Skipped), r)
  {
    CountedOk(run, Skipped);
    CountedVerdicts(run, r, Skipped);
  }

  /** A beginning that is blocked, or that does not take effect, or whose answer is lost. */
  lemma NotCalledGood(run: Run, r: Repository, r': Repository, run': Run)
    requires RunOk(run, r) && VerdictsOk(run, r) && run.pc.Beginning?
    requires RepoOk(r') && Grows(r, r') && OnlyTouches(r, r', None, run.number)
    requires run' == run.(pc := Aborted) || run' == Counted(run, Skipped)
    ensures TurnGood(run, r, run', r', None)
  {
    OwnVerdictsStand(run, r, r', None);
    SkippedIsMeant(run, r');
  }

  lemma CallingGood(run: Run, r: Repository, r': Repository, id: IntentId)
    requires RepoOk(r) && RunOk(run, r) && VerdictsOk(run, r) && run.pc.Beginning? && id == run.leases[|run.verdicts|]
    requires RepoOk(r') && Grows(r, r') && OnlyTouches(r, r', Some(id), run.number) && id !in r.calls && id !in r'.replies
    ensures TurnGood(run, r, run.(pc := Calling(id)), r', Some(id))
  {
    var run' := run.(pc := Calling(id));
    OwnVerdictsStand(run, r, r', Some(id));
    forall i | 0 <= i < |run.verdicts| ensures VerdictOk(run', r', run'.leases[i], run'.verdicts[i]) {
      assert VerdictOk(run, r', run.leases[i], run.verdicts[i]);
    }
  }

  lemma BeginGood(run: Run, r: Repository, a: Answer)
    requires RepoOk(r) && RunOk(run, r) && VerdictsOk(run, r) && run.pc.Beginning? && Accepts(run, r, a)
    ensures TurnGood(run, r, Turn(run, r, a).0, Turn(run, r, a).1,
                     if Turn(run, r, a).0.pc.Calling? then Some(run.leases[|run.verdicts|]) else None)
  {
    var id := run.leases[|run.verdicts|];
    if !a.delivery.Refused? && CanBegin(r, id, run.token) {
      var r1 := Begin(r, id, a.blocked);
      BeginKeepsIntents(r, id, run.token, a.blocked);
      BeginGrows(r, id, run.token, a.blocked, run.number);
      if a.delivery.Heard? && a.blocked.None? {
        CalledGood(r1, id, run.number);
        TouchesTogether(r, r1, Called(r1, id, run.number), Some(id), run.number);
        CallingGood(run, r, Called(r1, id, run.number), id);
      } else {
        NotCalledGood(run, r, r1, Turn(run, r, a).0);
      }
    } else {
      NotCalledGood(run, r, r, Turn(run, r, a).0);
    }
  }

  // ---- calling and completing ----------------------------------------------------------------

  lemma AnsweredKeepsRepo(r: Repository, id: IntentId, reply: ProviderReply, n: nat)
    requires RepoOk(r) && id in r.callers && r.callers[id] == n && id !in r.replies
    ensures
      var r' := r.(replies := r.replies[id := reply]);
      RepoOk(r') && Grows(r, r') && OnlyTouches(r, r', Some(id), n) && !IsSent(r', id) && id !in r'.lost
  {
    var r' := r.(replies := r.replies[id := reply]);
    assert id in r.calls && IntentOk(r, id);
    forall k: IntentId ensures RecordOk(r', k) && Explained(r', k) { assert RecordOk(r, k) && Explained(r, k); }
    forall k | 0 <= k < |r'.intents| ensures IntentOk(r', k) { assert IntentOk(r, k); }
    forall k: IntentId | k != id ensures SameRecord(r, r', k) {}
  }

  lemma CallGood(run: Run, r: Repository, a: Answer)
    requires RepoOk(r) && RunOk(run, r) && VerdictsOk(run, r) && run.pc.Calling? && Accepts(run, r, a)
    ensures TurnGood(run, r, Turn(run, r, a).0, Turn(run, r, a).1, Busy(run.pc))
  {
    var (run', r') := Turn(run, r, a);
    AnsweredKeepsRepo(r, run.pc.id, a.reply, run.number);
    OwnVerdictsStand(run, r, r', Busy(run.pc));
    forall i | 0 <= i < |run.verdicts| ensures VerdictOk(run', r', run'.leases[i], run'.verdicts[i]) {
      assert VerdictOk(run, r', run.leases[i], run.verdicts[i]);
    }
  }

  /** What a completion makes of the intent it is for. */
  lemma DeliveredStatus(r: Repository, id: IntentId, token: Token, outcome: Status, delivery: Delivery)
    requires RepoOk(r) && id < |r.intents|
    ensures
      var r' := Delivered(r, id, token, outcome, delivery);
      var takesEffect := !delivery.Refused? && CanComplete(r, id, token);
      && r'.intents[id].status == (if takesEffect then outcome else r.intents[id].status)
      && (id in r'.lost <==> id in r.lost || (outcome.SENT? && delivery.Lost? && takesEffect))
  {
  }

  lemma DeliveredKeepsRecords(r: Repository, id: IntentId, token: Token, outcome: Status, delivery: Delivery)
    requires RepoOk(r) && id in r.replies
    requires match outcome
             case SENT => r.replies[id].Accepted?
             case FAILED => Refuses(r.replies[id])
             case UNCERTAIN => !Refuses(r.replies[id])
             case _ => false
    ensures RecordsOk(Delivered(r, id, token, outcome, delivery))
  {
    var r' := Delivered(r, id, token, outcome, delivery);
    forall k: IntentId ensures RecordOk(r', k) && Explained(r', k) { assert RecordOk(r, k) && Explained(r, k); }
  }

  lemma DeliveredKeepsIntents(r: Repository, id: IntentId, token: Token, outcome: Status, delivery: Delivery)
    requires RepoOk(r) && id in r.replies && (outcome.SENT? || outcome.FAILED? || outcome.UNCERTAIN?)
    requires (outcome.SENT? ==> r.replies[id].Accepted?) && (outcome.FAILED? ==> Refuses(r.replies[id]))
    ensures forall k :: 0 <= k < |r.intents| ==> IntentOk(Delivered(r, id, token, outcome, delivery), k)
  {
    var r' := Delivered(r, id, token, outcome, delivery);
    forall k | 0 <= k < |r'.intents| ensures IntentOk(r', k) { assert IntentOk(r, k); }
  }

  lemma DeliveredKeepsCalls(r: Repository, id: IntentId, token: Token, outcome: Status, delivery: Delivery)
    requires CallsOk(r) && id < |r.intents|
    ensures CallsOk(Delivered(r, id, token, outcome, delivery))
  {
    var r' := Delivered(r, id, token, outcome, delivery);
    forall k | k in r'.lost ensures IsSent(r', k) { assert k != id ==> IsSent(r, k); }
  }

  lemma DeliveredKeepsRepo(r: Repository, id: IntentId, token: Token, outcome: Status, delivery: Delivery, n: nat)
    requires RepoOk(r) && id in r.replies && id in r.callers && r.callers[id] == n
    requires match outcome
             case SENT => r.replies[id].Accepted?
             case FAILED => Refuses(r.replies[id])
             case UNCERTAIN => !Refuses(r.replies[id])
             case _ => false
    ensures RepoOk(Delivered(r, id, token, outcome, delivery))
  {
    DeliveredKeepsRecords(r, id, token, outcome, delivery);
    DeliveredKeepsIntents(r, id, token, outcome, delivery);
    DeliveredKeepsCalls(r, id, token, outcome, delivery);
  }

  lemma DeliveredGrows(r: Repository, id: IntentId, token: Token, outcome: Status, delivery: Delivery, n: nat)
    requires id in r.callers && r.callers[id] == n
    ensures
      var r' := Delivered(r, id, token, outcome, delivery);
      Grows(r, r') && OnlyTouches(r, r', Some(id), n)
  {
    var r' := Delivered(r, id, token, outcome, delivery);
    forall k: IntentId | k != id ensures SameRecord(r, r', k) {}
  }

  /** The completion of an accepted message: counted sent exactly if it is known to have taken effect. */
  lemma CompleteSentGood(run: Run, r: Repository, a: Answer)
    requires RepoOk(r) && RunOk(run, r) && VerdictsOk(run, r) && Accepts(run, r, a)
    requires run.pc.Completing? && run.pc.outcome.SENT?
    ensures TurnGood(run, r, Turn(run, r, a).0, Turn(run, r, a).1, Busy(run.pc))
  {
    var (run', r') := Turn(run, r, a);
    var id := run.pc.id;
    assert IntentOk(r, id);
    DeliveredKeepsRepo(r, id, run.token, SENT, a.delivery, run.number);
    DeliveredGrows(r, id, run.token, SENT, a.delivery, run.number);
    DeliveredStatus(r, id, run.token, SENT, a.delivery);
    OwnVerdictsStand(run, r, r', Some(id));
    FinishTurn(run, r', run', Sent);
  }

  lemma CompleteOtherGood(run: Run, r: Repository, a: Answer)
    requires RepoOk(r) && RunOk(run, r) && VerdictsOk(run, r) && Accepts(run, r, a)
    requires run.pc.Completing? && !run.pc.outcome.SENT?
    ensures TurnGood(run, r, Turn(run, r, a).0, Turn(run, r, a).1, Busy(run.pc))
  {
    var (run', r') := Turn(run, r, a);
    var id, outcome := run.pc.id, run.pc.outcome;
    assert IntentOk(r, id);
    DeliveredKeepsRepo(r, id, run.token, outcome, a.delivery, run.number);
    DeliveredGrows(r, id, run.token, outcome, a.delivery, run.number);
    DeliveredStatus(r, id, run.token, outcome, a.delivery);
    OwnVerdictsStand(run, r, r', Some(id));
    FinishTurn(run, r', run', if outcome.FAILED? then Failed else Uncertain);
  }

  /** A completing run that counts its lease, or goes on to record it as uncertain. */
  lemma FinishTurn(run: Run, r': Repository, run': Run, v: Verdict)
    requires CountersOk(run) && run.pc.Completing? && VerdictsOk(run, r')
    requires |run.verdicts| < |run.leases| && run.pc.id == run.leases[|run.verdicts|]
    requires forall i :: 0 <= i < |run.leases| ==> run.leases[i] < |r'.intents|
    requires forall i :: |run.verdicts| < i < |run.leases| ==> !Mine(run, r', run.leases[i])
    requires (run' == Counted(run, v) && VerdictOk(run, r', run.pc.id, v))
      || (run' == run.(pc := Completing(run.pc.id, UNCERTAIN)) && BusyOk(run', r'))
    ensures RunOk(run', r') && VerdictsOk(run', r') && run'.number == run.number
  {
    CountedOk(run, v);
    if run' == Counted(run, v) {
      CountedVerdicts(run, r', v);
    } else {
      forall i | 0 <= i < |run.verdicts| ensures VerdictOk(run', r', run'.leases[i], run'.verdicts[i]) {
        assert VerdictOk(run, r', run.leases[i], run.verdicts[i]);
      }
    }
  }

  function Touched(run: Run, run': Run): Option<IntentId> {
    if Busy(run.pc).Some? then Busy(run.pc) else Busy(run'.pc)
  }

  lemma TurnIsGood(run: Run, r: Repository, a: Answer)
    requires RepoOk(r) && RunOk(run, r) && VerdictsOk(run, r) && Accepts(run, r, a)
    ensures TurnGood(run, r, Turn(run, r, a).0, Turn(run, r, a).1, Touched(run, Turn(run, r, a).0))
  {
    match run.pc
    case Leasing => LeaseGood(run, r, a);
    case Beginning => BeginGood(run, r, a);
    case Calling(_) => CallGood(run, r, a);
    case Completing(_, outcome) => if outcome.SENT? { CompleteSentGood(run, r, a); } else { CompleteOtherGood(run, r, a); }
    case _ =>
  }

  lemma StepKeepsWorldOk(w: World, k: nat, a: Answer)
    requires WorldOk(w) && Possible(w, Step(k, a))
    ensures WorldOk(After(w, Step(k, a))) && Grows(w.repo, After(w, Step(k, a)).repo)
  {
    var w' := After(w, Step(k, a));
    TurnIsGood(w.runs[k], w.repo, a);
    var t := Touched(w.runs[k], w'.runs[k]);
    forall l | 0 <= l < |w.runs| && l != k
      ensures w'.runs[l].number == l && RunOk(w'.runs[l], w'.repo) && VerdictsOk(w'.runs[l], w'.repo)
    {
      OthersUnaffected(w.runs[l], w.repo, w'.repo, t, k);
    }
  }

  lemma NewIntentKeepsWorldOk(w: World)
    requires WorldOk(w)
    ensures WorldOk(After(w, NewIntent))
  {
    var w' := After(w, NewIntent);
    forall id | 0 <= id < |w'.repo.intents| ensures IntentOk(w'.repo, id) {
      if id < |w.repo.intents| { assert IntentOk(w.repo, id); }
    }
    forall id: IntentId ensures RecordOk(w'.repo, id) && Explained(w'.repo, id) {
      assert RecordOk(w.repo, id) && Explained(w.repo, id);
    }
    forall id: IntentId ensures SameRecord(w.repo, w'.repo, id) {}
    forall k | 0 <= k < |w.runs| ensures RunOk(w'.runs[k], w'.repo) && VerdictsOk(w'.runs[k], w'.repo) {
      OthersUnaffected(w.runs[k], w.repo, w'.repo, None, k + 1);
    }
  }

  lemma TickKeepsWorldOk(w: World, now: int)
    requires WorldOk(w)
    ensures WorldOk(w.(repo := w.repo.(now := now)))
  {
    var w' := w.(repo := w.repo.(now := now));
    forall id | 0 <= id < |w'.repo.intents| ensures IntentOk(w'.repo, id) { assert IntentOk(w.repo, id); }
    forall id: IntentId ensures RecordOk(w'.repo, id) && Explained(w'.repo, id) {
      assert RecordOk(w.repo, id) && Explained(w.repo, id);
    }
    forall id: IntentId ensures SameRecord(w.repo, w'.repo, id) {}
    forall k | 0 <= k < |w.runs| ensures RunOk(w'.runs[k], w'.repo) && VerdictsOk(w'.runs[k], w'.repo) {
      OthersUnaffected(w.runs[k], w.repo, w'.repo, None, k + 1);
    }
  }

  lemma EventKeepsWorldOk(w: World, e: Event)
    requires WorldOk(w) && Possible(w, e)
    ensures WorldOk(After(w, e)) && Grows(w.repo, After(w, e).repo)
  {
    match e {
      case Step(k, a) => StepKeepsWorldOk(w, k, a);
      case Dispatch(_) =>
      case NewIntent => NewIntentKeepsWorldOk(w);
      case Tick(now) => TickKeepsWorldOk(w, now);
    }
  }

  ghost predicate Leads(w: World, history: seq<Event>, w': World)
    decreases |history|
  {
    if history == [] then w == w'
    else Possible(w, history[0]) && Leads(After(w, history[0]), history[1..], w')
  }

  /** A settled status is final: no overlapping run, expiry or late completion changes it. */
  lemma {:induction false} SettledForGood(w: World, history: seq<Event>, w': World)
    requires WorldOk(w) && Leads(w, history, w')
    ensures WorldOk(w') && Grows(w.repo, w'.repo)
    decreases |history|
  {
    if history != [] {
      EventKeepsWorldOk(w, history[0]);
      SettledForGood(After(w, history[0]), history[1..], w');
    }
  }

  /**
    Over every history of overlapping runs, expired leases and lost replies: each intent reaches
    the provider at most once; FAILED means the provider refused it with a 4xx, SENT that it
    accepted it; a run counts each lease exactly once, and every verdict means what `VerdictOk` says.
   */
  lemma DispatcherSafety(history: seq<Event>, w: World)
    requires Leads(START, history, w)
    ensures Sorting.Distinct(w.repo.calls)
    ensures forall id :: 0 <= id < |w.repo.intents| && w.repo.intents[id].status.FAILED? ==>
      id in w.repo.replies && w.repo.replies[id].HttpStatus? && 400 <= w.repo.replies[id].status < 500
    ensures forall id :: 0 <= id < |w.repo.intents| && w.repo.intents[id].status.SENT? ==>
      id in w.repo.replies && w.repo.replies[id].Accepted?
    ensures forall k :: 0 <= k < |w.runs| ==> CountersOk(w.runs[k]) && VerdictsOk(w.runs[k], w.repo)
    ensures forall k :: 0 <= k < |w.runs| && w.runs[k].pc.Returned? ==>
      var run := w.runs[k];
      |run.leases| == run.sent + run.failed + run.uncertain + run.skipped <= 25
  {
    SettledForGood(START, history, w);
    forall id | 0 <= id < |w.repo.intents|
      ensures w.repo.intents[id].status.FAILED? ==> id in w.repo.replies && Refuses(w.repo.replies[id])
      ensures w.repo.intents[id].status.SENT? ==> id in w.repo.replies && w.repo.replies[id].Accepted?
    {
      assert IntentOk(w.repo, id);
    }
  }

  /**
    Over every history a lease is counted by what the provider answered this run's call with: failed
    exactly on a status from 400 to 499, uncertain on every other answer that is no acceptance, and
    sent only on an acceptance.
   */
  lemma VerdictFollowsAnswer(history: seq<Event>, w: World, k: nat, i: nat)
    requires Leads(START, history, w) && k < |w.runs| && i < |w.runs[k].verdicts|
    ensures
      var run, r := w.runs[k], w.repo;
      && i < |run.leases|
      && var id, v := run.leases[i], run.verdicts[i];
      && (v == Skipped <==> !(id in r.callers && r.callers[id] == k))
      && (v != Skipped ==> id in r.replies)
      && (v == Failed <==> v != Skipped && r.replies[id].HttpStatus? && 400 <= r.replies[id].status <= 499)
      && (v != Skipped && (r.replies[id].Unknown? || (r.replies[id].HttpStatus? && !(400 <= r.replies[id].status <= 499))) ==>
            v == Uncertain)
      && (v == Sent ==> r.replies[id].Accepted? && id < |r.intents| && r.intents[id].status == SENT)
  {
    SettledForGood(START, history, w);
    assert VerdictsOk(w.runs[k], w.repo);
    var id := w.runs[k].leases[i];
    assert VerdictOk(w.runs[k], w.repo, id, w.runs[k].verdicts[i]);
    assert id < |w.repo.intents| && IntentOk(w.repo, id);
  }

  /**
    Over every history the status of an intent that was called is what was recorded for it, else
    UNCERTAIN once its lease was given up, else LEASED; what was recorded is FAILED exactly for an
    answer from 400 to 499, and UNCERTAIN for every other answer that is no acceptance.
   */
  lemma StatusFollowsAnswer(history: seq<Event>, w: World, id: IntentId)
    requires Leads(START, history, w) && id in w.repo.callers
    ensures id < |w.repo.intents|
    ensures w.repo.intents[id].status == if id in w.repo.recorded then w.repo.recorded[id]
                                         else if id in w.repo.expired then UNCERTAIN else LEASED
    ensures id in w.repo.recorded ==>
      && id in w.repo.replies
      && var (reply, status) := (w.repo.replies[id], w.repo.recorded[id]);
      && (status == FAILED <==> reply.HttpStatus? && 400 <= reply.status <= 499)
      && (reply.Unknown? || (reply.HttpStatus? && !(400 <= reply.status <= 499)) ==> status == UNCERTAIN)
      && (reply.Accepted? ==> status == SENT || status == UNCERTAIN)
  {
    SettledForGood(START, history, w);
    assert RecordOk(w.repo, id) && Explained(w.repo, id);
  }

  /** The answer decides what the run then tries to record. */
  lemma AnswerDecides(run: Run, r: Repository, reply: ProviderReply)
    requires run.pc.Calling?
    ensures
      var next := Turn(run, r, Replied(reply)).0.pc;
      && next.Completing? && next.id == run.pc.id
      && (next.outcome == SENT <==> reply.Accepted?)
      && (next.outcome == FAILED <==> reply.HttpStatus? && 400 <= reply.status <= 499)
      && (next.outcome == UNCERTAIN <==> reply.Unknown? || (reply.HttpStatus? && (reply.status < 400 || 499 < reply.status)))
  {
  }

  /**
    The provider is called in a turn exactly if that turn's beginning is heard and finds the intent
    still leased under the run's token, the lease not over, no attempt marked and nothing that
    blocks it; the marker is then set in the same turn.
   */
  lemma CallsExactly(run: Run, r: Repository, a: Answer)
    requires run.pc.Beginning? && Accepts(run, r, a)
    ensures
      var (run', r') := Turn(run, r, a);
      var id := run.leases[|run.verdicts|];
      && (r'.calls != r.calls <==>
            && a.delivery == Heard && a.blocked == None && id < |r.intents| && r.intents[id].status == LEASED
            && r.intents[id].token == Some(run.token) && r.now <= r.intents[id].leaseUntil && !r.intents[id].attempted)
      && (r'.calls != r.calls ==> r'.calls == r.calls + [id] && r'.intents[id].attempted && run'.pc == Calling(id))
  {
  }

  /**
    A beginning that is turned down settles the intent as cancelled or uncertain, without a marker,
    and the provider is not called; one that finds no lease to go on changes nothing.
   */
  lemma BlockedExactly(run: Run, r: Repository, a: Answer)
    requires run.pc.Beginning? && Accepts(run, r, a)
    ensures
      var (run', r') := Turn(run, r, a);
      var id := run.leases[|run.verdicts|];
      var live := a.delivery != Refused && id < |r.intents| && r.intents[id].status == LEASED
                  && r.intents[id].token == Some(run.token) && r.now <= r.intents[id].leaseUntil && !r.intents[id].attempted;
      && (live && a.blocked.Some? ==>
            && r'.calls == r.calls && r'.intents[id].status == a.blocked.value && r'.intents[id].token == None
            && !r'.intents[id].attempted)
      && (!live ==> r' == r)
      && (forall k :: 0 <= k < |r.intents| && k != id ==> r'.intents[k] == r.intents[k])
      && (run'.pc == Aborted <==> a.delivery != Heard)
  {
  }

  /**
    A completion takes effect exactly on an intent that is leased under the token and has its attempt
    marked; the intent then has the outcome and no lease, and no other changes.
   */
  lemma CompletesExactly(r: Repository, id: IntentId, token: Token, outcome: Status, delivery: Delivery)
    requires delivery != Refused
    ensures
      var r' := Delivered(r, id, token, outcome, delivery);
      var live := id < |r.intents| && r.intents[id].status == LEASED && r.intents[id].token == Some(token) && r.intents[id].attempted;
      && (live ==>
            && r'.intents[id].status == outcome && r'.intents[id].token == None && r'.intents[id].attempted
            && id in r'.recorded && r'.recorded[id] == outcome)
      && (!live ==> r'.intents == r.intents && r'.recorded == r.recorded)
      && |r'.intents| == |r.intents| && forall k :: 0 <= k < |r.intents| && k != id ==> r'.intents[k] == r.intents[k]
  {
  }

  /**
    A lease call takes no more than 25 intents, each of them pending or with a lease that ran out
    before any attempt, for the next 60 seconds; every other attempted one whose lease ran out
    becomes uncertain, and nothing else changes.
   */
  lemma LeaseExactly(r: Repository, token: Token, ids: seq<IntentId>, id: IntentId)
    requires CanLease(r, ids) && id < |r.intents|
    ensures |ids| <= 25
    ensures
      var i, i' := r.intents[id], Lease(r, token, ids).intents[id];
      var ranOut := i.status == LEASED && i.leaseUntil < r.now;
      && (id in ids ==> (i.status == PENDING || (ranOut && !i.attempted)) && i' == Intent(LEASED, Some(token), r.now + 60, i.attempted))
      && (id !in ids && ranOut && i.attempted ==> i'.status == UNCERTAIN && i'.token == None && i'.attempted)
      && (id !in ids && !(ranOut && i.attempted) ==> i' == i)
  {
  }

  // ---- the loop ------------------------------------------------------------------------------

  datatype Summary = Summary(claimed: nat, sent: nat, failed: nat, uncertain: nat, skipped: nat)

  /** What one pass of the loop hears from the repository and the provider. */
  datatype PassData = Pass(blocked: Option<Status>, begin: Delivery, reply: ProviderReply, complete: Delivery, record: Delivery)

  type Pass = p: PassData | p.blocked.Some? ==> p.blocked.value.CANCELLED? || p.blocked.value.UNCERTAIN?
    witness Pass(None, Heard, Unknown, Heard, Heard)

  /** The turns of one pass of the loop when no other run comes in between. */
  function PassTurns(run: Run, r: Repository, p: Pass): (Run, Repository)
    requires run.pc.Beginning? && |run.verdicts| < |run.leases|
  {
    var (began, r1) := Turn(run, r, Began(p.blocked, p.begin));
    if !began.pc.Calling? then (began, r1)
    else
      var (called, r2) := Turn(began, r1, Replied(p.reply));
      var (stored, r3) := Turn(called, r2, Stored(if p.reply.Accepted? then p.complete else p.record));
      if stored.pc.Completing? then Turn(stored, r3, Stored(p.record)) else (stored, r3)
  }

  /** Whether a pass calls the provider. */
  predicate Calls(run: Run, r: Repository, p: Pass)
    requires |run.verdicts| < |run.leases|
  {
    p.begin.Heard? && CanBegin(r, run.leases[|run.verdicts|], run.token) && p.blocked.None?
  }

  /** How a pass counts its lease: sent only if the completion is known to have taken effect. */
  function VerdictOf(calls: bool, p: Pass): Verdict {
    if !calls then Skipped
    else if p.reply.HttpStatus? && 400 <= p.reply.status < 500 then Failed
    else if p.reply.Accepted? && p.complete.Heard? then Sent
    else Uncertain
  }

  /**
    A pass aborts the run exactly if the answer of its beginning does not arrive, and otherwise
    counts its lease under one verdict.
   */
  lemma PassCountsOnce(run: Run, r: Repository, p: Pass)
    requires run.pc.Beginning? && |run.verdicts| < |run.leases|
    ensures PassTurns(run, r, p).0
         == if p.begin.Heard? then Counted(run, VerdictOf(Calls(run, r, p), p)) else run.(pc := Aborted)
  {
  }

  /**
    What a pass that calls the provider leaves in the store, by the provider's answer and by which
    completions took effect. An accepted message is left SENT if and only if its completion took
    effect, heard or not; otherwise it is UNCERTAIN if and only if recording that took effect.
   */
  lemma PassLeaves(run: Run, r: Repository, p: Pass)
    requires run.pc.Beginning? && |run.verdicts| < |run.leases| && Calls(run, r, p)
    ensures
      var id := run.leases[|run.verdicts|];
      var after := PassTurns(run, r, p).1;
      && id < |after.intents| && after.calls == r.calls + [id] && id in after.replies && after.replies[id] == p.reply
      && (p.reply.Accepted? ==>
            && (after.intents[id].status == SENT <==> !p.complete.Refused?)
            && (after.intents[id].status == UNCERTAIN <==> p.complete.Refused? && !p.record.Refused?)
            && (after.intents[id].status == LEASED <==> p.complete.Refused? && p.record.Refused?))
      && (!p.reply.Accepted? ==>
            after.intents[id].status == if p.record.Refused? then LEASED
                                             else if p.reply.HttpStatus? && 400 <= p.reply.status < 500 then FAILED else UNCERTAIN)
      && forall other :: 0 <= other < |r.intents| && other != id ==> after.intents[other] == r.intents[other]
  {
  }

  /**
    The completion of an accepted message whatever other runs did since: counted sent if and only
    if it is heard and the lease still allows it, left SENT if and only if it takes effect.
   */
  lemma CompletionExactly(run: Run, r: Repository, delivery: Delivery)
    requires RepoOk(r) && RunOk(run, r) && run.pc.Completing? && run.pc.outcome.SENT?
    ensures
      var id := run.pc.id;
      var (run', r') := Turn(run, r, Stored(delivery));
      && (run' == Counted(run, Sent) <==> delivery.Heard? && CanComplete(r, id, run.token))
      && (run' != Counted(run, Sent) ==> run' == run.(pc := Completing(id, UNCERTAIN)))
      && (IsSent(r', id) <==> !delivery.Refused? && CanComplete(r, id, run.token))
  {
    DeliveredStatus(r, run.pc.id, run.token, SENT, delivery);
  }

  /** Recording the outcome as uncertain counts it so, and leaves it so if and only if that takes effect. */
  lemma RecordingExactly(run: Run, r: Repository, delivery: Delivery)
    requires RepoOk(r) && RunOk(run, r) && run.pc.Completing? && run.pc.outcome.UNCERTAIN?
    requires r.intents[run.pc.id].status.LEASED?
    ensures
      var id := run.pc.id;
      var (run', r') := Turn(run, r, Stored(delivery));
      && run' == Counted(run, Uncertain)
      && (r'.intents[id].status == UNCERTAIN <==> !delivery.Refused? && CanComplete(r, id, run.token))
      && (r'.intents[id].status == LEASED <==> delivery.Refused? || !CanComplete(r, id, run.token))
  {
    DeliveredStatus(r, run.pc.id, run.token, UNCERTAIN, delivery);
  }

  predicate Ready(run: Run) {
    run.pc.Beginning? && |run.verdicts| < |run.leases|
  }

  /** The run and the repository after the first `n` passes; a throwing pass ends the run. */
  function Passes(run: Run, r: Repository, passes: seq<Pass>, n: nat): (Run, Repository)
    requires n <= |passes|
  {
    if n == 0 then (run, r)
    else
      var before := Passes(run, r, passes, n - 1);
      if Ready(before.0) then PassTurns(before.0, before.1, passes[n - 1]) else before
  }

  lemma {:induction false} AbortedStays(run: Run, r: Repository, passes: seq<Pass>, n: nat, m: nat)
    requires n <= m <= |passes| && Passes(run, r, passes, n).0.pc.Aborted?
    ensures Passes(run, r, passes, m) == Passes(run, r, passes, n)
  {
    if n < m { AbortedStays(run, r, passes, n, m - 1); }
  }

  function FreshRun(number: nat, token: Token, ids: seq<IntentId>): Run {
    Run(number, token, ids, if ids == [] then Returned else Beginning, [], 0, 0, 0, 0)
  }

  lemma NextPass(run: Run, r: Repository, passes: seq<Pass>, n: nat)
    requires n < |passes| && Ready(Passes(run, r, passes, n).0)
    ensures
      var before := Passes(run, r, passes, n);
      Passes(run, r, passes, n + 1) == PassTurns(before.0, before.1, passes[n])
  {
  }

  /** The counters of a run, as the local variables of the loop hold them. */
  predicate Tallies(run: Run, ids: seq<IntentId>, i: nat, sent: nat, failed: nat, uncertain: nat, skipped: nat) {
    && run.leases == ids && |run.verdicts| == i <= |ids| && run.pc == (if i < |ids| then Beginning else Returned)
    && (sent, failed, uncertain, skipped) == (run.sent, run.failed, run.uncertain, run.skipped)
    && sent + failed + uncertain + skipped == i
  }

  /** The counter updates at the end of a pass. */
  method CountVerdict(v: Verdict, sent: nat, failed: nat, uncertain: nat, skipped: nat, ghost run: Run, ghost ids: seq<IntentId>, ghost i: nat)
    returns (sent': nat, failed': nat, uncertain': nat, skipped': nat)
    requires Tallies(run, ids, i, sent, failed, uncertain, skipped) && i < |ids|
    ensures Tallies(Counted(run, v), ids, i + 1, sent', failed', uncertain', skipped')
  {
    sent', failed', uncertain', skipped' := sent, failed, uncertain, skipped;
    match v {
      case Sent => sent' := sent + 1;
      case Failed => failed' := failed + 1;
      case Uncertain => uncertain' := uncertain + 1;
      case Skipped => skipped' := skipped + 1;
    }
  }

  class EventMessaging {
    var repo: Repository

    constructor ()
      ensures repo == START.repo && RepoOk(repo)
    {
      repo := START.repo;
    }

    /**
      The intent gets the outcome exactly if the lease allows it and the call takes effect, and
      then no later completion can change it; an acknowledgement means that this happened. Nothing
      else changes but the records of what took effect and of a lost answer.
     */
    method CompleteAttempt(id: IntentId, token: Token, outcome: Status, delivery: Delivery) returns (acknowledged: bool)
      modifies this
      ensures repo == Delivered(old(repo), id, token, outcome, delivery)
      ensures acknowledged <==> delivery.Heard? && CanComplete(old(repo), id, token)
      ensures acknowledged ==> id < |repo.intents| && repo.intents[id].status == outcome
      ensures !delivery.Refused? && CanComplete(old(repo), id, token) ==>
        id < |repo.intents| && repo.intents[id].status == outcome && forall later :: !CanComplete(repo, id, later)
      ensures delivery.Refused? || !CanComplete(old(repo), id, token) ==> repo.intents == old(repo).intents
      ensures forall k :: 0 <= k < |old(repo).intents| && k != id ==> k < |repo.intents| && repo.intents[k] == old(repo).intents[k]
      ensures (repo.now, repo.calls, repo.callers, repo.replies, repo.expired)
           == old((repo.now, repo.calls, repo.callers, repo.replies, repo.expired))
    {
      acknowledged := delivery.Heard? && CanComplete(repo, id, token);
      var lost := outcome.SENT? && delivery.Lost? && CanComplete(repo, id, token);
      if !delivery.Refused? { repo := Complete(repo, id, token, outcome); }
      if lost { repo := repo.(lost := repo.lost + {id}); }
    }

    /**
      One pass of the loop; `None` when `beginProviderAttempt` throws. `run` takes the turns of the
      pass, and `PassLeaves` says what they leave in the store.
     */
    method HandleLease(number: nat, id: IntentId, token: Token, p: Pass, ghost run: Run) returns (verdict: Option<Verdict>)
      requires run.pc.Beginning? && run.token == token && run.number == number
      requires |run.verdicts| < |run.leases| && run.leases[|run.verdicts|] == id
      modifies this
      ensures (if verdict.Some? then Counted(run, verdict.value) else run.(pc := Aborted), repo) == PassTurns(run, old(repo), p)
      ensures verdict == if p.begin.Heard? then Some(VerdictOf(Calls(run, old(repo), p), p)) else None
      ensures verdict == Some(Sent) ==> IsSent(repo, id) && id in repo.replies && repo.replies[id].Accepted?
      ensures verdict == Some(Failed) ==> p.reply.HttpStatus? && 400 <= p.reply.status < 500
      ensures verdict == Some(Failed) ==> id < |repo.intents| && repo.intents[id].status == if p.record.Refused? then LEASED else FAILED
      ensures verdict == Some(Uncertain) ==> (IsSent(repo, id) <==> p.reply.Accepted? && p.complete.Lost?)
    {
      PassCountsOnce(run, repo, p);
      if Calls(run, repo, p) { PassLeaves(run, repo, p); }
      var begins := !p.begin.Refused? && CanBegin(repo, id, token);
      if begins { repo := Begin(repo, id, p.blocked); }
      if !p.begin.Heard? { return None; }
      if !begins || p.blocked.Some? { return Some(Skipped); }
      repo := Called(repo, id, number);
      repo := repo.(replies := repo.replies[id := p.reply]);
      if p.reply.Accepted? {
        var acknowledged := CompleteAttempt(id, token, SENT, p.complete);
        if acknowledged { return Some(Sent); }
      }
      var deterministic := Deterministic(p.reply);
      var _ := CompleteAttempt(id, token, if deterministic then FAILED else UNCERTAIN, p.record);
      verdict := Some(if deterministic then Failed else Uncertain);
    }

    method HandleNext(number: nat, token: Token, id: IntentId, passes: seq<Pass>, i: nat, ghost start: Run, ghost leased: Repository, ghost run: Run)
      returns (verdict: Option<Verdict>)
      requires i < |passes| && (run, repo) == Passes(start, leased, passes, i) && Ready(run)
      requires run.token == token && run.number == number && |run.verdicts| == i && run.leases[i] == id
      modifies this
      ensures (if verdict.Some? then Counted(run, verdict.value) else run.(pc := Aborted), repo) == Passes(start, leased, passes, i + 1)
    {
      NextPass(start, leased, passes, i);
      verdict := HandleLease(number, id, token, passes[i], run);
    }

    /** `dispatchPendingWhatsAppEventMessages` for the leased `ids`; `None` when a repository call throws. */
    method Dispatch(number: nat, token: Token, ids: seq<IntentId>, passes: seq<Pass>) returns (summary: Option<Summary>)
      requires CanLease(repo, ids) && |passes| == |ids|
      modifies this
      ensures
        var (run, r) := Passes(FreshRun(number, token, ids), Lease(old(repo), token, ids), passes, |ids|);
        && repo == r
        && (summary.None? <==> run.pc.Aborted?)
        && (summary.Some? ==> summary.value == Summary(|ids|, run.sent, run.failed, run.uncertain, run.skipped))
      ensures summary.Some? ==>
        summary.value.claimed == summary.value.sent + summary.value.failed + summary.value.uncertain + summary.value.skipped <= 25
    {
      ghost var start, leased := FreshRun(number, token, ids), Lease(repo, token, ids);
      repo := Lease(repo, token, ids);
      var sent, failed, uncertain, skipped := 0, 0, 0, 0;
      ghost var run := start;
      for i := 0 to |ids|
        invariant (run, repo) == Passes(start, leased, passes, i)
        invariant run.token == token && run.number == number && Tallies(run, ids, i, sent, failed, uncertain, skipped)
      {
        var verdict := HandleNext(number, token, ids[i], passes, i, start, leased, run);
        if verdict.None? {
          AbortedStays(start, leased, passes, i + 1, |ids|);
          return None;
        }
        sent, failed, uncertain, skipped := CountVerdict(verdict.value, sent, failed, uncertain, skipped, run, ids, i);
        run := Counted(run, verdict.value);
      }
      summary := Some(Summary(|ids|, sent, failed, uncertain, skipped));
    }
  }
}
