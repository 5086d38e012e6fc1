/**
  The per-request promise-chain mutex of the online order services.

  A call of `run` is split where the program awaits. Each call gets a run number in arrival
  order. Its gate is released in its `finally` block; its tail promise settles some time after
  both the previous tail and its own gate have settled, in a turn of the event loop of its own.
 */
module MutationLock {
  import opened Wrappers

  type Key = string
  type RunId = nat

  datatype Phase = Waiting | Running | Finished(threw: bool)

  /** `previous == None` stands for the fallback `Promise.resolve()`. */
  datatype Run = Run(key: Key, previous: Option<RunId>, phase: Phase)

  /** `tails` is the program's map; `settled` holds the tail promises that have settled. */
  datatype LockState = LockState(runs: seq<Run>, settled: set<RunId>, tails: map<Key, RunId>)

  datatype Step =
    | Arrive(key: Key)
    | Settle(run: RunId)
    | Start(run: RunId)
    | Finish(run: RunId, threw: bool)

  const INIT := LockState([], {}, map[])

  predicate PreviousSettled(s: LockState, r: Run) {
    r.previous.None? || r.previous.value in s.settled
  }

  predicate Enabled(s: LockState, step: Step) {
    match step
    case Arrive(_) => true
    case Settle(r) =>
      r < |s.runs| && s.runs[r].phase.Finished? && r !in s.settled && PreviousSettled(s, s.runs[r])
    case Start(r) => r < |s.runs| && s.runs[r].phase.Waiting? && PreviousSettled(s, s.runs[r])
    case Finish(r, _) => r < |s.runs| && s.runs[r].phase.Running?
  }

  function Apply(s: LockState, step: Step): LockState
    requires Enabled(s, step)
  {
    match step
    case Arrive(k) =>
      var previous := if k in s.tails then Some(s.tails[k]) else None;
      s.(runs := s.runs + [Run(k, previous, Waiting)], tails := s.tails[k := |s.runs|])
    case Settle(r) => s.(settled := s.settled + {r})
    case Start(r) => s.(runs := s.runs[r := s.runs[r].(phase := Running)])
    case Finish(r, threw) =>
      var k := s.runs[r].key;
      s.(runs := s.runs[r := s.runs[r].(phase := Finished(threw))],
         tails := if k in s.tails && s.tails[k] == r then s.tails - {k} else s.tails)
  }

  /** The state a whole schedule leads to, if every step of it is enabled when its turn comes. */
  function RunTrace(s: LockState, trace: seq<Step>): Option<LockState> {
    if trace == [] then Some(s)
    else
      var before := RunTrace(s, trace[..|trace| - 1]);
      var step := trace[|trace| - 1];
      if before.Some? && Enabled(before.value, step) then Some(Apply(before.value, step)) else None
  }

  predicate Started(s: LockState, r: RunId)
    requires r < |s.runs|
  {
    !s.runs[r].phase.Waiting?
  }

  predicate Ended(s: LockState, r: RunId)
    requires r < |s.runs|
  {
    s.runs[r].phase.Finished?
  }

  /** Operations on one key run one at a time, in arrival order, whatever they throw. */
  ghost predicate InOrder(s: LockState) {
    forall i, j :: 0 <= j < i < |s.runs| && s.runs[j].key == s.runs[i].key && Started(s, i) ==> Ended(s, j)
  }

  ghost predicate YoungestOn(s: LockState, k: Key, r: RunId) {
    && r < |s.runs| && s.runs[r].key == k
    && forall j :: 0 <= j < |s.runs| && s.runs[j].key == k ==> j <= r
  }

  /** The map holds exactly the keys with an unfinished run, and its entry is the youngest such run. */
  ghost predicate TailsExact(s: LockState) {
    && (forall k :: k in s.tails ==> YoungestOn(s, k, s.tails[k]) && !Ended(s, s.tails[k]))
    && (forall j :: 0 <= j < |s.runs| && s.runs[j].key !in s.tails ==> Ended(s, j))
  }

  ghost predicate LinkShape(s: LockState, i: RunId)
    requires i < |s.runs|
  {
    match s.runs[i].previous
    case None => forall j :: 0 <= j < i && s.runs[j].key == s.runs[i].key ==> Ended(s, j)
    case Some(p) =>
      && p < i && s.runs[p].key == s.runs[i].key
      && (forall j :: 0 <= j < i && s.runs[j].key == s.runs[i].key ==> j <= p)
      && (Started(s, i) ==> p in s.settled)
  }

  ghost predicate ChainShape(s: LockState) {
    forall i :: 0 <= i < |s.runs| ==> LinkShape(s, i)
  }

  ghost predicate SettledShape(s: LockState) {
    forall r :: r in s.settled ==> r < |s.runs| && Ended(s, r) && PreviousSettled(s, s.runs[r])
  }

  ghost predicate Inv(s: LockState) {
    InOrder(s) && TailsExact(s) && ChainShape(s) && SettledShape(s)
  }

  lemma ArriveKeepsTails(s: LockState, k: Key)
    requires TailsExact(s)
    ensures TailsExact(Apply(s, Arrive(k)))
  {
    var t := Apply(s, Arrive(k));
    var n := |s.runs|;
    assert forall i :: 0 <= i < n ==> t.runs[i] == s.runs[i];
    assert YoungestOn(t, k, n);
    forall k' | k' in t.tails && k' != k
      ensures YoungestOn(t, k', t.tails[k']) && !Ended(t, t.tails[k'])
    {
      assert YoungestOn(s, k', s.tails[k']);
    }
  }

  lemma ArriveKeepsChain(s: LockState, k: Key)
    requires ChainShape(s) && TailsExact(s)
    ensures ChainShape(Apply(s, Arrive(k)))
  {
    var t := Apply(s, Arrive(k));
    assert forall i :: 0 <= i < |s.runs| ==> t.runs[i] == s.runs[i];
    forall i | 0 <= i < |s.runs| ensures LinkShape(t, i) { assert LinkShape(s, i); }
    if k in s.tails { assert YoungestOn(s, k, s.tails[k]); }
    assert LinkShape(t, |s.runs|);
  }

  lemma ArriveKeepsInv(s: LockState, k: Key)
    requires Inv(s)
    ensures Inv(Apply(s, Arrive(k)))
  {
    var t := Apply(s, Arrive(k));
    ArriveKeepsTails(s, k);
    ArriveKeepsChain(s, k);
    assert forall i :: 0 <= i < |s.runs| ==> t.runs[i] == s.runs[i];
    assert t.runs[|s.runs|].phase == Waiting;
  }

  lemma SettleKeepsInv(s: LockState, r: RunId)
    requires Inv(s) && Enabled(s, Settle(r))
    ensures Inv(Apply(s, Settle(r)))
  {
    var t := Apply(s, Settle(r));
    forall i | 0 <= i < |t.runs| ensures LinkShape(t, i) { assert LinkShape(s, i); }
  }

  /** A step that leaves map, keys, links and ended calls as they are keeps map and chain exact. */
  lemma SameShapeKeepsTails(s: LockState, t: LockState)
    requires TailsExact(s) && t.tails == s.tails && |t.runs| == |s.runs|
    requires forall i :: 0 <= i < |s.runs| ==> t.runs[i].key == s.runs[i].key && Ended(t, i) == Ended(s, i)
    ensures TailsExact(t)
  {
    forall k | k in t.tails
      ensures YoungestOn(t, k, t.tails[k]) && !Ended(t, t.tails[k])
    {
      assert YoungestOn(s, k, s.tails[k]);
    }
  }

  lemma StartKeepsOrder(s: LockState, r: RunId)
    requires Inv(s) && Enabled(s, Start(r))
    ensures forall j :: 0 <= j < r && s.runs[j].key == s.runs[r].key ==> Ended(s, j)
  {
    assert LinkShape(s, r);
    forall j | 0 <= j < r && s.runs[j].key == s.runs[r].key ensures Ended(s, j) {
      if s.runs[r].previous.Some? {
        var p := s.runs[r].previous.value;
        assert Started(s, p) && j <= p;
      }
    }
  }

  lemma StartKeepsInv(s: LockState, r: RunId)
    requires Inv(s) && Enabled(s, Start(r))
    ensures Inv(Apply(s, Start(r)))
  {
    var t := Apply(s, Start(r));
    assert forall i :: 0 <= i < |s.runs| ==> t.runs[i].key == s.runs[i].key && Ended(t, i) == Ended(s, i)
                                             && t.runs[i].previous == s.runs[i].previous;
    StartKeepsOrder(s, r);
    SameShapeKeepsTails(s, t);
    forall i | 0 <= i < |t.runs| ensures LinkShape(t, i) { assert LinkShape(s, i); }
  }

  lemma FinishKeepsTails(s: LockState, r: RunId, threw: bool)
    requires TailsExact(s) && Enabled(s, Finish(r, threw))
    requires forall j :: 0 <= j < r && s.runs[j].key == s.runs[r].key ==> Ended(s, j)
    ensures TailsExact(Apply(s, Finish(r, threw)))
  {
    var t := Apply(s, Finish(r, threw));
    var k := s.runs[r].key;
    assert forall i :: 0 <= i < |s.runs| ==> t.runs[i].key == s.runs[i].key;
    assert forall i :: 0 <= i < |s.runs| && i != r ==> t.runs[i] == s.runs[i];
    forall k' | k' in t.tails
      ensures YoungestOn(t, k', t.tails[k']) && !Ended(t, t.tails[k'])
    {
      assert YoungestOn(s, k', s.tails[k']);
    }
    forall j | 0 <= j < |t.runs| && t.runs[j].key !in t.tails
      ensures Ended(t, j)
    {
      if t.runs[j].key == k && k in s.tails { assert YoungestOn(s, k, r) && j <= r; }
    }
  }

  lemma FinishKeepsInv(s: LockState, r: RunId, threw: bool)
    requires Inv(s) && Enabled(s, Finish(r, threw))
    ensures Inv(Apply(s, Finish(r, threw)))
  {
    var t := Apply(s, Finish(r, threw));
    assert Started(s, r);
    assert forall i :: 0 <= i < |s.runs| ==> t.runs[i].key == s.runs[i].key && t.runs[i].previous == s.runs[i].previous
                                             && Started(t, i) == Started(s, i) && (Ended(s, i) ==> Ended(t, i));
    FinishKeepsTails(s, r, threw);
    forall i | 0 <= i < |t.runs| ensures LinkShape(t, i) { assert LinkShape(s, i); }
  }

  lemma StepKeepsInv(s: LockState, step: Step)
    requires Inv(s) && Enabled(s, step)
    ensures Inv(Apply(s, step))
  {
    match step
    case Arrive(k) => ArriveKeepsInv(s, k);
    case Settle(r) => SettleKeepsInv(s, r);
    case Start(r) => StartKeepsInv(s, r);
    case Finish(r, threw) => FinishKeepsInv(s, r, threw);
  }

  lemma {:induction false} TraceKeepsInv(s: LockState, trace: seq<Step>)
    requires Inv(s) && RunTrace(s, trace).Some?
    ensures Inv(RunTrace(s, trace).value)
  {
    if trace != [] {
      TraceKeepsInv(s, trace[..|trace| - 1]);
      StepKeepsInv(RunTrace(s, trace[..|trace| - 1]).value, trace[|trace| - 1]);
    }
  }

  /** One operation per key at a time, started in arrival order, each after all earlier ones ended. */
  ghost predicate Exclusive(s: LockState) {
    forall i, j :: 0 <= j < i < |s.runs| && s.runs[j].key == s.runs[i].key ==>
      !(s.runs[i].phase.Running? && s.runs[j].phase.Running?) && (Started(s, i) ==> Ended(s, j))
  }

  /** A key is in the map exactly while some call on it is unfinished. */
  ghost predicate MapExact(s: LockState) {
    forall k :: k in s.tails <==> exists i :: 0 <= i < |s.runs| && s.runs[i].key == k && !Ended(s, i)
  }

  lemma InvGivesSafety(s: LockState)
    requires Inv(s)
    ensures Exclusive(s) && MapExact(s)
  {
    forall k ensures k in s.tails <==> exists i :: 0 <= i < |s.runs| && s.runs[i].key == k && !Ended(s, i) {
      if k in s.tails { assert YoungestOn(s, k, s.tails[k]); }
    }
  }

  /** Safety over every schedule, with throwing operations included. */
  lemma LockSafety(trace: seq<Step>)
    requires RunTrace(INIT, trace).Some?
    ensures Exclusive(RunTrace(INIT, trace).value) && MapExact(RunTrace(INIT, trace).value)
  {
    assert Inv(RunTrace(INIT, trace).value) by { TraceKeepsInv(INIT, trace); }
    InvGivesSafety(RunTrace(INIT, trace).value);
  }

  // ---- progress ------------------------------------------------------------------------------

  /** The steps run `i` still has to take: start, finish, settle. */
  function StepsLeft(s: LockState, i: RunId): nat
    requires i < |s.runs|
  {
    match s.runs[i].phase
    case Waiting => 3
    case Running => 2
    case Finished(_) => if i in s.settled then 0 else 1
  }

  function StepsAhead(s: LockState, k: Key, n: nat): nat
    requires n <= |s.runs|
  {
    if n == 0 then 0
    else StepsAhead(s, k, n - 1) + if s.runs[n - 1].key == k then StepsLeft(s, n - 1) else 0
  }

  /** What separates a call from its start: the steps of earlier calls on its key, and its own. */
  function Wait(s: LockState, r: RunId): nat
    requires r < |s.runs|
  {
    if Started(s, r) then 0 else 1 + StepsAhead(s, s.runs[r].key, r)
  }

  predicate Works(s: LockState, step: Step, k: Key, n: nat) {
    !step.Arrive? && step.run < |s.runs| && step.run < n && s.runs[step.run].key == k
  }

  lemma {:induction false} StepNeverAddsWork(s: LockState, step: Step, k: Key, n: nat)
    requires Enabled(s, step) && n <= |s.runs|
    ensures StepsAhead(Apply(s, step), k, n) <= StepsAhead(s, k, n)
    ensures Works(s, step, k, n) ==> StepsAhead(Apply(s, step), k, n) < StepsAhead(s, k, n)
  {
    if n > 0 { StepNeverAddsWork(s, step, k, n - 1); }
  }

  lemma StepShortensWait(s: LockState, step: Step, r: RunId)
    requires Enabled(s, step) && r < |s.runs|
    ensures Wait(Apply(s, step), r) <= Wait(s, r)
    ensures !Started(s, r) && Works(s, step, s.runs[r].key, r + 1) ==> Wait(Apply(s, step), r) < Wait(s, r)
  {
    StepNeverAddsWork(s, step, s.runs[r].key, r);
  }

  lemma {:induction false} TraceShortensWait(s: LockState, trace: seq<Step>, r: RunId)
    requires RunTrace(s, trace).Some? && r < |s.runs|
    ensures
      var t := RunTrace(s, trace).value;
      && |s.runs| <= |t.runs| && Wait(t, r) <= Wait(s, r)
      && forall i :: 0 <= i < |s.runs| ==> t.runs[i].key == s.runs[i].key
  {
    if trace != [] {
      TraceShortensWait(s, trace[..|trace| - 1], r);
      StepShortensWait(RunTrace(s, trace[..|trace| - 1]).value, trace[|trace| - 1], r);
    }
  }

  ghost predicate LinksBackwards(s: LockState) {
    forall j {:trigger s.runs[j].previous} :: 0 <= j < |s.runs| && s.runs[j].previous.Some? ==>
      s.runs[j].previous.value < j && s.runs[s.runs[j].previous.value].key == s.runs[j].key
  }

  /** A step that is enabled now, on the key of a call that is not done, by that call or one ahead of it. */
  ghost function Helper(s: LockState, i: RunId): (step: Step)
    requires i < |s.runs| && StepsLeft(s, i) > 0
    requires LinksBackwards(s)
    ensures Enabled(s, step) && Works(s, step, s.runs[i].key, i + 1)
  {
    if !PreviousSettled(s, s.runs[i]) then Helper(s, s.runs[i].previous.value)
    else match s.runs[i].phase
      case Waiting => Start(i)
      case Running => Finish(i, false)
      case Finished(_) => Settle(i)
  }

  lemma InvLinksBackwards(s: LockState)
    requires Inv(s)
    ensures LinksBackwards(s)
  {
    forall j | 0 <= j < |s.runs| && s.runs[j].previous.Some?
      ensures s.runs[j].previous.value < j && s.runs[s.runs[j].previous.value].key == s.runs[j].key
    {
      assert LinkShape(s, j);
    }
  }

  /** The same turn of the same call; a started operation may end either way. */
  predicate SameTurn(a: Step, b: Step) {
    a == b || (a.Finish? && b.Finish? && a.run == b.run)
  }

  /** No other step can take an enabled step away: weak fairness is enough to have it taken. */
  lemma EnabledStaysEnabled(s: LockState, step: Step, other: Step)
    requires Inv(s) && !step.Arrive? && Enabled(s, step) && Enabled(s, other) && !SameTurn(step, other)
    ensures Enabled(Apply(s, other), step)
  {
    assert step.Settle? ==> LinkShape(s, step.run);
  }

  /** A stretch of schedule in which everything enabled at its start gets its turn. */
  ghost predicate FairRound(s: LockState, round: seq<Step>) {
    && RunTrace(s, round).Some?
    && forall e: Step :: !e.Arrive? && Enabled(s, e) ==> exists i :: 0 <= i < |round| && SameTurn(round[i], e)
  }

  ghost predicate FairRounds(s: LockState, rounds: seq<seq<Step>>)
    decreases |rounds|
  {
    rounds != [] ==> FairRound(s, rounds[0]) && FairRounds(RunTrace(s, rounds[0]).value, rounds[1..])
  }

  ghost function AfterRounds(s: LockState, rounds: seq<seq<Step>>): LockState
    requires FairRounds(s, rounds)
    decreases |rounds|
  {
    if rounds == [] then s else AfterRounds(RunTrace(s, rounds[0]).value, rounds[1..])
  }

  lemma {:induction false} PrefixRuns(s: LockState, trace: seq<Step>, n: nat, r: RunId)
    requires n <= |trace| && RunTrace(s, trace).Some? && r < |s.runs|
    ensures RunTrace(s, trace[..n]).Some?
    ensures r < |RunTrace(s, trace[..n]).value.runs| && r < |RunTrace(s, trace).value.runs|
    ensures Wait(RunTrace(s, trace).value, r) <= Wait(RunTrace(s, trace[..n]).value, r)
    decreases |trace|
  {
    TraceShortensWait(s, trace, r);
    if n == |trace| {
      assert trace[..n] == trace;
    } else {
      var shorter := trace[..|trace| - 1];
      assert shorter[..n] == trace[..n];
      PrefixRuns(s, shorter, n, r);
      StepShortensWait(RunTrace(s, shorter).value, trace[|trace| - 1], r);
    }
  }

  lemma TakenStepShortensWait(s: LockState, round: seq<Step>, i: nat, r: RunId)
    requires RunTrace(s, round).Some? && i < |round| && r < |s.runs| && !Started(s, r)
    requires Works(s, round[i], s.runs[r].key, r + 1)
    ensures r < |RunTrace(s, round).value.runs|
    ensures Wait(RunTrace(s, round).value, r) < Wait(s, r)
  {
    PrefixRuns(s, round, i + 1, r);
    assert round[..i + 1][..i] == round[..i];
    TraceShortensWait(s, round[..i], r);
    StepShortensWait(RunTrace(s, round[..i]).value, round[i], r);
  }

  lemma FairRoundShortensWait(s: LockState, round: seq<Step>, r: RunId)
    requires LinksBackwards(s) && FairRound(s, round) && r < |s.runs| && !Started(s, r)
    ensures r < |RunTrace(s, round).value.runs|
    ensures Wait(RunTrace(s, round).value, r) < Wait(s, r)
  {
    var e := Helper(s, r);
    var i :| 0 <= i < |round| && SameTurn(round[i], e);
    TakenStepShortensWait(s, round, i, r);
  }

  /** Every waiting call starts: it takes no more fair rounds than there are steps before its start. */
  lemma {:induction false} EveryWaiterStarts(s: LockState, rounds: seq<seq<Step>>, r: RunId)
    requires Inv(s) && FairRounds(s, rounds) && r < |s.runs| && Wait(s, r) <= |rounds|
    ensures r < |AfterRounds(s, rounds).runs| && Started(AfterRounds(s, rounds), r)
    decreases |rounds|
  {
    if rounds != [] {
      var t := RunTrace(s, rounds[0]).value;
      TraceKeepsInv(s, rounds[0]);
      TraceShortensWait(s, rounds[0], r);
      if !Started(s, r) { InvLinksBackwards(s); FairRoundShortensWait(s, rounds[0], r); }
      EveryWaiterStarts(t, rounds[1..], r);
    }
  }

  /** The schedule can be run, and brings call `r` to its start. */
  ghost predicate Brings(s: LockState, trace: seq<Step>, r: RunId) {
    RunTrace(s, trace).Some? && r < |RunTrace(s, trace).value.runs| && Started(RunTrace(s, trace).value, r)
  }

  /** All steps of the schedule are steps on the key of call `r`, by it or by earlier calls. */
  ghost predicate OwnWork(s: LockState, trace: seq<Step>, r: RunId)
    requires r < |s.runs|
  {
    forall e :: e in trace ==> Works(s, e, s.runs[r].key, r + 1)
  }

  /**
    Different keys never block each other: whatever state the calls on other keys are in, and even
    if they never move again, a waiting call can be brought to its start by steps on its own key.
   */
  lemma OwnKeySuffices(s: LockState, r: RunId) returns (trace: seq<Step>)
    requires LinksBackwards(s) && r < |s.runs|
    ensures Brings(s, trace, r) && OwnWork(s, trace, r) && |trace| <= Wait(s, r)
    decreases Wait(s, r)
  {
    if Started(s, r) {
      trace := [];
    } else {
      var e := Helper(s, r);
      StepShortensWait(s, e, r);
      WorkKeepsShape(s, e, r);
      var rest := OwnKeySuffices(Apply(s, e), r);
      FirstStep(s, e, rest);
      OwnWorkFirst(s, e, rest, r);
      trace := [e] + rest;
    }
  }

  lemma OwnWorkFirst(s: LockState, e: Step, rest: seq<Step>, r: RunId)
    requires r < |s.runs| && Enabled(s, e) && Works(s, e, s.runs[r].key, r + 1)
    requires |Apply(s, e).runs| == |s.runs| && forall i :: 0 <= i < |s.runs| ==> Apply(s, e).runs[i].key == s.runs[i].key
    requires OwnWork(Apply(s, e), rest, r)
    ensures OwnWork(s, [e] + rest, r)
  {
    forall x | x in [e] + rest ensures Works(s, x, s.runs[r].key, r + 1) {
      assert x in rest ==> Works(Apply(s, e), x, s.runs[r].key, r + 1);
    }
  }

  lemma WorkKeepsShape(s: LockState, e: Step, r: RunId)
    requires LinksBackwards(s) && r < |s.runs| && Enabled(s, e) && !e.Arrive?
    ensures LinksBackwards(Apply(s, e)) && |Apply(s, e).runs| == |s.runs|
    ensures forall i :: 0 <= i < |s.runs| ==> Apply(s, e).runs[i].key == s.runs[i].key
  {
    var t := Apply(s, e);
    assert forall i :: 0 <= i < |s.runs| ==> t.runs[i].key == s.runs[i].key && t.runs[i].previous == s.runs[i].previous;
  }

  lemma {:induction false} FirstStep(s: LockState, e: Step, rest: seq<Step>)
    requires Enabled(s, e)
    ensures RunTrace(s, [e] + rest) == RunTrace(Apply(s, e), rest)
  {
    if rest == [] {
      assert [e] + rest == [e];
      assert RunTrace(s, [e][..0]) == Some(s);
    } else {
      var n := |rest|;
      FirstStep(s, e, rest[..n - 1]);
      assert ([e] + rest)[..n] == [e] + rest[..n - 1];
    }
  }

  // ---- the object ----------------------------------------------------------------------------

  class OnlineOrderMutationLock {
    var tails: map<Key, RunId>
    // The calls made so far and the tail promises the event loop has settled.
    var runs: seq<Run>
    var settled: set<RunId>

    function State(): LockState
      reads this
    {
      LockState(runs, settled, tails)
    }

    constructor ()
      ensures State() == INIT && Inv(State())
    {
      tails, runs, settled := map[], [], {};
    }

    /** The synchronous part of `run`, up to `await previous`. */
    method Arrive(requestId: Key) returns (run: RunId)
      requires Inv(State())
      modifies this
      ensures State() == Apply(old(State()), Step.Arrive(requestId)) && Inv(State())
      ensures run == |old(runs)| && tails == old(tails)[requestId := run]
    {
      StepKeepsInv(State(), Step.Arrive(requestId));
      var previous := None;
      if requestId in tails { previous := Some(tails[requestId]); }
      run := |runs|;
      runs := runs + [Run(requestId, previous, Waiting)];
      tails := tails[requestId := run];
    }

    /** `previous.then(() => gate)` settles. */
    method Settle(run: RunId)
      requires Inv(State()) && Enabled(State(), Step.Settle(run))
      modifies this`settled
      ensures State() == Apply(old(State()), Step.Settle(run)) && Inv(State())
    {
      StepKeepsInv(State(), Step.Settle(run));
      settled := settled + {run};
    }

    /** `await previous` resumes; the operation is called. */
    method Start(run: RunId)
      requires Inv(State()) && Enabled(State(), Step.Start(run))
      modifies this`runs
      ensures State() == Apply(old(State()), Step.Start(run)) && Inv(State())
      ensures forall j :: 0 <= j < |runs| && j != run && runs[j].key == runs[run].key ==> !runs[j].phase.Running?
    {
      StepKeepsInv(State(), Step.Start(run));
      runs := runs[run := runs[run].(phase := Running)];
    }

    /** The `finally` block: release the gate, then drop the map entry if it is still this call's. */
    method Finish(run: RunId, threw: bool)
      requires Inv(State()) && Enabled(State(), Step.Finish(run, threw))
      modifies this`runs, this`tails
      ensures State() == Apply(old(State()), Step.Finish(run, threw)) && Inv(State())
      ensures runs[run].key in tails <==> exists j :: 0 <= j < |runs| && runs[j].key == runs[run].key && !Ended(State(), j)
    {
      StepKeepsInv(State(), Step.Finish(run, threw));
      var key := runs[run].key;
      runs := runs[run := runs[run].(phase := Finished(threw))];
      if key in tails && tails[key] == run {
        tails := tails - {key};
      }
      assert key in tails ==> YoungestOn(State(), key, tails[key]);
    }
  }
}
