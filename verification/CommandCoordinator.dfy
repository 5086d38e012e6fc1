/**
  The device-wide command queue. It keeps one gate, that of the youngest call, and a new call
  awaits that bare gate instead of a chained tail promise.
 */
module CommandCoordinator {
  import opened Wrappers
  import L = MutationLock

  type RunId = nat

  /** The gate of a call is released exactly when the call is `Finished`. */
  datatype Run = Run(previous: Option<RunId>, phase: L.Phase)

  datatype QueueState = QueueState(runs: seq<Run>, tail: Option<RunId>)

  datatype Step = Arrive | Start(run: RunId) | Finish(run: RunId, threw: bool)

  const INIT := QueueState([], None)

  predicate GateReleased(s: QueueState, gate: Option<RunId>) {
    gate.Some? ==> gate.value < |s.runs| && s.runs[gate.value].phase.Finished?
  }

  predicate Enabled(s: QueueState, step: Step) {
    match step
    case Arrive => true
    case Start(r) => r < |s.runs| && s.runs[r].phase.Waiting? && GateReleased(s, s.runs[r].previous)
    case Finish(r, _) => r < |s.runs| && s.runs[r].phase.Running?
  }

  function Apply(s: QueueState, step: Step): QueueState
    requires Enabled(s, step)
  {
    match step
    case Arrive => QueueState(s.runs + [Run(s.tail, L.Waiting)], Some(|s.runs|))
    case Start(r) => s.(runs := s.runs[r := s.runs[r].(phase := L.Running)])
    case Finish(r, threw) => s.(runs := s.runs[r := s.runs[r].(phase := L.Finished(threw))])
  }

  function RunTrace(s: QueueState, trace: seq<Step>): Option<QueueState> {
    if trace == [] then Some(s)
    else
      var before := RunTrace(s, trace[..|trace| - 1]);
      var step := trace[|trace| - 1];
      if before.Some? && Enabled(before.value, step) then Some(Apply(before.value, step)) else None
  }

  /**
    A released gate implies that all earlier gates are released: finished calls come first, then
    at most one running call, then the waiting ones.
   */
  ghost predicate Inv(s: QueueState) {
    && s.tail == (if s.runs == [] then None else Some(|s.runs| - 1))
    && (forall i :: 0 <= i < |s.runs| ==> s.runs[i].previous == if i == 0 then None else Some(i - 1))
    && (forall i, j :: 0 <= j < i < |s.runs| && !s.runs[i].phase.Waiting? ==> s.runs[j].phase.Finished?)
  }

  lemma StepKeepsInv(s: QueueState, step: Step)
    requires Inv(s) && Enabled(s, step)
    ensures Inv(Apply(s, step))
  {
  }

  lemma {:induction false} TraceKeepsInv(s: QueueState, trace: seq<Step>)
    requires Inv(s) && RunTrace(s, trace).Some?
    ensures Inv(RunTrace(s, trace).value)
  {
    if trace != [] {
      TraceKeepsInv(s, trace[..|trace| - 1]);
      StepKeepsInv(RunTrace(s, trace[..|trace| - 1]).value, trace[|trace| - 1]);
    }
  }

  /** The commands that have ended: by `Inv`, a prefix of the commands that arrived. */
  function EndedCount(s: QueueState): (n: nat)
    ensures n <= |s.runs|
    ensures forall i :: 0 <= i < n ==> s.runs[i].phase.Finished?
    ensures n < |s.runs| ==> !s.runs[n].phase.Finished?
  {
    EndedFrom(s, 0)
  }

  lemma EndedIs(s: QueueState, n: nat)
    requires n <= |s.runs| && (forall i :: 0 <= i < n ==> s.runs[i].phase.Finished?)
    requires n < |s.runs| ==> !s.runs[n].phase.Finished?
    ensures EndedCount(s) == n
  {
    var m := EndedCount(s);
    assert forall i :: 0 <= i < n ==> s.runs[i].phase.Finished? && i != m;
    assert forall i :: 0 <= i < m ==> s.runs[i].phase.Finished? && i != n;
  }

  function EndedFrom(s: QueueState, i: nat): (n: nat)
    requires i <= |s.runs|
    ensures i <= n <= |s.runs|
    ensures forall j :: i <= j < n ==> s.runs[j].phase.Finished?
    ensures n < |s.runs| ==> !s.runs[n].phase.Finished?
    decreases |s.runs| - i
  {
    if i < |s.runs| && s.runs[i].phase.Finished? then EndedFrom(s, i + 1) else i
  }

  /**
    In every reachable state a released gate implies that all earlier gates are released, and
    exactly one turn is possible besides arrivals: that of the oldest command that has not ended.
    So the commands ahead of a waiter leave one at a time, oldest first, until it starts.
   */
  lemma QueueOrder(trace: seq<Step>, gate: RunId, step: Step)
    requires RunTrace(INIT, trace).Some? && !step.Arrive?
    ensures
      var s := RunTrace(INIT, trace).value;
      && (gate < |s.runs| && s.runs[gate].phase.Finished? ==> gate < EndedCount(s))
      && (Enabled(s, step) ==> step.run == EndedCount(s))
      && (EndedCount(s) < |s.runs| ==> Enabled(s, Start(EndedCount(s))) || Enabled(s, Finish(EndedCount(s), false)))
  {
    TraceKeepsInv(INIT, trace);
  }

  // ---- progress ------------------------------------------------------------------------------

  /** The turns until a command starts: two for each command ahead of it that has not started, one for one that runs. */
  function Wait(s: QueueState, r: RunId): nat
    requires r < |s.runs|
  {
    var e := EndedCount(s);
    if !s.runs[r].phase.Waiting? || r < e then 0
    else 2 * (r - e) + if s.runs[e].phase.Running? then 0 else 1
  }

  function Turns(trace: seq<Step>): nat {
    if trace == [] then 0 else Turns(trace[..|trace| - 1]) + if trace[|trace| - 1].Arrive? then 0 else 1
  }

  lemma EndedAfter(s: QueueState, step: Step)
    requires Inv(s) && Enabled(s, step)
    ensures EndedCount(Apply(s, step)) == EndedCount(s) + if step.Finish? then 1 else 0
    ensures !step.Arrive? ==> step.run == EndedCount(s)
  {
    var e := EndedCount(s);
    assert forall i :: e < i < |s.runs| ==> s.runs[i].phase.Waiting?;
    EndedIs(Apply(s, step), e + if step.Finish? then 1 else 0);
  }

  /** An arrival leaves every wait as it is; any other turn shortens every wait by one. */
  lemma TurnShortensWait(s: QueueState, step: Step, r: RunId)
    requires Inv(s) && Enabled(s, step) && r < |s.runs|
    ensures Wait(s, r) > 0 <==> s.runs[r].phase.Waiting?
    ensures Wait(Apply(s, step), r) == if step.Arrive? || Wait(s, r) == 0 then Wait(s, r) else Wait(s, r) - 1
  {
    EndedAfter(s, step);
  }

  /**
    Progress: a command has started exactly when as many turns have been taken, by whatever
    commands, as its wait was long; and while any command has not ended, a turn is possible.
   */
  lemma {:induction false} EveryCommandStarts(s: QueueState, trace: seq<Step>, r: RunId)
    requires Inv(s) && RunTrace(s, trace).Some? && r < |s.runs|
    ensures
      var t := RunTrace(s, trace).value;
      && |s.runs| <= |t.runs| && Wait(t, r) == (if Turns(trace) < Wait(s, r) then Wait(s, r) - Turns(trace) else 0)
      && (!t.runs[r].phase.Waiting? <==> Wait(s, r) <= Turns(trace))
      && (EndedCount(t) < |t.runs| ==> Enabled(t, Start(EndedCount(t))) || Enabled(t, Finish(EndedCount(t), false)))
  {
    TraceKeepsInv(s, trace);
    if trace == [] {
      TurnShortensWait(s, Arrive, r);
    } else {
      var init, last := trace[..|trace| - 1], trace[|trace| - 1];
      EveryCommandStarts(s, init, r);
      TraceKeepsInv(s, init);
      TurnShortensWait(RunTrace(s, init).value, last, r);
      TurnShortensWait(RunTrace(s, trace).value, Arrive, r);
    }
  }

  // ---- the bare gate against the chained tail -------------------------------------------------

  function Phases(s: QueueState): seq<L.Phase> {
    seq(|s.runs|, i requires 0 <= i < |s.runs| => s.runs[i].phase)
  }

  function LockPhases(s: L.LockState): seq<L.Phase> {
    seq(|s.runs|, i requires 0 <= i < |s.runs| => s.runs[i].phase)
  }

  /** What a caller can see of a step of the lock; settling of a promise is invisible. */
  function VisibleStep(e: L.Step): seq<Step> {
    match e
    case Arrive(_) => [Arrive]
    case Settle(_) => []
    case Start(r) => [Start(r)]
    case Finish(r, threw) => [Finish(r, threw)]
  }

  function Visible(trace: seq<L.Step>): seq<Step> {
    if trace == [] then [] else Visible(trace[..|trace| - 1]) + VisibleStep(trace[|trace| - 1])
  }

  function LockStep(v: Step, k: L.Key): L.Step {
    match v
    case Arrive => L.Arrive(k)
    case Start(r) => L.Start(r)
    case Finish(r, threw) => L.Finish(r, threw)
  }

  predicate OneKey(trace: seq<L.Step>, k: L.Key) {
    forall e :: e in trace && e.Arrive? ==> e.key == k
  }

  ghost predicate AllOn(s: L.LockState, k: L.Key) {
    forall i :: 0 <= i < |s.runs| ==> s.runs[i].key == k
  }

  lemma ExtendQueue(s: QueueState, trace: seq<Step>, v: Step)
    requires RunTrace(s, trace).Some? && Enabled(RunTrace(s, trace).value, v)
    ensures RunTrace(s, trace + [v]) == Some(Apply(RunTrace(s, trace).value, v))
  {
    assert (trace + [v])[..|trace|] == trace;
  }

  lemma SamePhases(ls: L.LockState, qs: QueueState)
    requires LockPhases(ls) == Phases(qs)
    ensures |ls.runs| == |qs.runs| && forall i :: 0 <= i < |ls.runs| ==> ls.runs[i].phase == qs.runs[i].phase
  {
    assert |ls.runs| == |LockPhases(ls)| == |Phases(qs)|;
    assert forall i :: 0 <= i < |ls.runs| ==> ls.runs[i].phase == LockPhases(ls)[i] == Phases(qs)[i] == qs.runs[i].phase;
  }

  lemma LockStepEnabledOnQueue(ls: L.LockState, e: L.Step, qs: QueueState, k: L.Key)
    requires L.Inv(ls) && Inv(qs) && AllOn(ls, k) && LockPhases(ls) == Phases(qs)
    requires L.Enabled(ls, e) && !e.Settle?
    ensures Enabled(qs, VisibleStep(e)[0])
  {
    SamePhases(ls, qs);
    if e.Start? && e.run > 0 {
      var p := e.run - 1;
      assert ls.runs[p].key == ls.runs[e.run].key;
      assert L.LinkShape(ls, e.run);
      assert L.Ended(ls, p);
    }
  }

  /** One step of the lock is one step of the queue, or invisible. */
  lemma LockStepIsQueueStep(ls: L.LockState, e: L.Step, qs: QueueState, k: L.Key)
    requires L.Inv(ls) && Inv(qs) && AllOn(ls, k) && LockPhases(ls) == Phases(qs)
    requires L.Enabled(ls, e) && (e.Arrive? ==> e.key == k)
    ensures AllOn(L.Apply(ls, e), k)
    ensures e.Settle? ==> LockPhases(L.Apply(ls, e)) == Phases(qs)
    ensures !e.Settle? ==>
      var v := VisibleStep(e)[0];
      Enabled(qs, v) && LockPhases(L.Apply(ls, e)) == Phases(Apply(qs, v))
  {
    SamePhases(ls, qs);
    if e.Settle? {
      assert LockPhases(L.Apply(ls, e)) == LockPhases(ls);
    } else {
      LockStepEnabledOnQueue(ls, e, qs, k);
      var end, after := L.Apply(ls, e), Apply(qs, VisibleStep(e)[0]);
      assert |end.runs| == |after.runs| && forall i :: 0 <= i < |end.runs| ==> end.runs[i].phase == after.runs[i].phase;
    }
  }

  lemma {:induction false} LockRunIsQueueRun(trace: seq<L.Step>, k: L.Key)
    requires OneKey(trace, k) && L.RunTrace(L.INIT, trace).Some?
    ensures RunTrace(INIT, Visible(trace)).Some? && AllOn(L.RunTrace(L.INIT, trace).value, k)
    ensures LockPhases(L.RunTrace(L.INIT, trace).value) == Phases(RunTrace(INIT, Visible(trace)).value)
  {
    if trace != [] {
      var init, e := trace[..|trace| - 1], trace[|trace| - 1];
      LockRunIsQueueRun(init, k);
      var ls, qs := L.RunTrace(L.INIT, init).value, RunTrace(INIT, Visible(init)).value;
      L.TraceKeepsInv(L.INIT, init);
      TraceKeepsInv(INIT, Visible(init));
      LockStepIsQueueStep(ls, e, qs, k);
      assert e in trace;
      if e.Settle? {
        assert Visible(trace) == Visible(init);
      } else {
        ExtendQueue(INIT, Visible(init), VisibleStep(e)[0]);
        assert VisibleStep(e) == [VisibleStep(e)[0]];
      }
    }
  }

  /** The same run on the lock, each tail promise settling as soon as its gate is released. */
  function Eager(visible: seq<Step>, k: L.Key): seq<L.Step> {
    if visible == [] then []
    else
      var v := visible[|visible| - 1];
      Eager(visible[..|visible| - 1], k) + LockSteps(v, k)
  }

  ghost predicate AllSettled(s: L.LockState) {
    forall i :: 0 <= i < |s.runs| && s.runs[i].phase.Finished? ==> i in s.settled
  }

  lemma Extend(s: L.LockState, trace: seq<L.Step>, e: L.Step)
    requires L.RunTrace(s, trace).Some? && L.Enabled(L.RunTrace(s, trace).value, e)
    ensures L.RunTrace(s, trace + [e]) == Some(L.Apply(L.RunTrace(s, trace).value, e))
  {
    assert (trace + [e])[..|trace|] == trace;
  }

  lemma ExtendVisible(trace: seq<L.Step>, e: L.Step)
    ensures Visible(trace + [e]) == Visible(trace) + VisibleStep(e)
  {
    assert (trace + [e])[..|trace|] == trace;
  }

  /** The lock on one key stands where the queue stands, with all ended calls settled. */
  ghost predicate Mirrors(ls: L.LockState, qs: QueueState, k: L.Key) {
    L.Inv(ls) && Inv(qs) && AllOn(ls, k) && AllSettled(ls) && LockPhases(ls) == Phases(qs)
  }

  lemma QueueStepEnabledOnLock(qs: QueueState, v: Step, ls: L.LockState, k: L.Key)
    requires Mirrors(ls, qs, k) && Enabled(qs, v)
    ensures L.Enabled(ls, LockStep(v, k))
    ensures v.Finish? ==> L.Enabled(L.Apply(ls, LockStep(v, k)), L.Settle(v.run))
  {
    SamePhases(ls, qs);
    if !v.Arrive? {
      assert L.LinkShape(ls, v.run);
      if v.Start? && v.run > 0 {
        assert ls.runs[v.run - 1].key == ls.runs[v.run].key;
        assert ls.runs[v.run].previous.Some? ==> v.run - 1 <= ls.runs[v.run].previous.value;
      }
    }
  }

  function EndOfStep(ls: L.LockState, v: Step, k: L.Key): L.LockState
    requires L.Enabled(ls, LockStep(v, k))
    requires v.Finish? ==> L.Enabled(L.Apply(ls, LockStep(v, k)), L.Settle(v.run))
  {
    var mid := L.Apply(ls, LockStep(v, k));
    if v.Finish? then L.Apply(mid, L.Settle(v.run)) else mid
  }

  /** A step the queue can take, the lock can take too, and then stands where the queue stands. */
  lemma QueueStepOnLock(qs: QueueState, v: Step, ls: L.LockState, k: L.Key)
    requires Mirrors(ls, qs, k) && Enabled(qs, v)
    ensures L.Enabled(ls, LockStep(v, k))
    ensures v.Finish? ==> L.Enabled(L.Apply(ls, LockStep(v, k)), L.Settle(v.run))
    ensures Mirrors(EndOfStep(ls, v, k), Apply(qs, v), k)
  {
    QueueStepEnabledOnLock(qs, v, ls, k);
    var end := EndOfStep(ls, v, k);
    assert L.Inv(end) by {
      L.StepKeepsInv(ls, LockStep(v, k));
      if v.Finish? { L.StepKeepsInv(L.Apply(ls, LockStep(v, k)), L.Settle(v.run)); }
    }
    assert Inv(Apply(qs, v)) by { StepKeepsInv(qs, v); }
    EndOfStepMirrors(qs, v, ls, k);
  }

  lemma EndOfStepMirrors(qs: QueueState, v: Step, ls: L.LockState, k: L.Key)
    requires Mirrors(ls, qs, k) && Enabled(qs, v) && L.Enabled(ls, LockStep(v, k))
    requires v.Finish? ==> L.Enabled(L.Apply(ls, LockStep(v, k)), L.Settle(v.run))
    ensures var end := EndOfStep(ls, v, k); AllOn(end, k) && AllSettled(end) && LockPhases(end) == Phases(Apply(qs, v))
  {
    SamePhases(ls, qs);
    var end, after := EndOfStep(ls, v, k), Apply(qs, v);
    assert |end.runs| == |after.runs|;
    assert forall i :: 0 <= i < |end.runs| ==> end.runs[i].phase == after.runs[i].phase;
  }

  function LockSteps(v: Step, k: L.Key): seq<L.Step> {
    [LockStep(v, k)] + if v.Finish? then [L.Settle(v.run)] else []
  }

  lemma AppendedIsOneKey(trace: seq<L.Step>, v: Step, k: L.Key)
    requires OneKey(trace, k)
    ensures OneKey(trace + LockSteps(v, k), k)
  {
    forall e | e in trace + LockSteps(v, k) && e.Arrive? ensures e.key == k {
      assert e in trace || e == LockStep(v, k);
    }
  }

  lemma AppendedIsVisible(trace: seq<L.Step>, v: Step, k: L.Key)
    ensures Visible(trace + LockSteps(v, k)) == Visible(trace) + [v]
  {
    var e := LockStep(v, k);
    assert VisibleStep(e) == [v];
    ExtendVisible(trace, e);
    if v.Finish? {
      ExtendVisible(trace + [e], L.Settle(v.run));
      assert trace + LockSteps(v, k) == (trace + [e]) + [L.Settle(v.run)];
    }
  }

  lemma AppendedRuns(trace: seq<L.Step>, v: Step, k: L.Key)
    requires L.RunTrace(L.INIT, trace).Some? && L.Enabled(L.RunTrace(L.INIT, trace).value, LockStep(v, k))
    requires v.Finish? ==> L.Enabled(L.Apply(L.RunTrace(L.INIT, trace).value, LockStep(v, k)), L.Settle(v.run))
    ensures L.RunTrace(L.INIT, trace + LockSteps(v, k)) == Some(EndOfStep(L.RunTrace(L.INIT, trace).value, v, k))
  {
    var e := LockStep(v, k);
    Extend(L.INIT, trace, e);
    if v.Finish? {
      Extend(L.INIT, trace + [e], L.Settle(v.run));
      assert trace + LockSteps(v, k) == (trace + [e]) + [L.Settle(v.run)];
    } else {
      assert trace + LockSteps(v, k) == trace + [e];
    }
  }

  /** The lock run `trace` looks like the queue run `visible` and ends where it ends. */
  ghost predicate Replays(trace: seq<L.Step>, visible: seq<Step>, k: L.Key) {
    && OneKey(trace, k) && Visible(trace) == visible
    && L.RunTrace(L.INIT, trace).Some? && RunTrace(INIT, visible).Some?
    && Mirrors(L.RunTrace(L.INIT, trace).value, RunTrace(INIT, visible).value, k)
  }

  lemma LastQueueStep(visible: seq<Step>, v: Step)
    requires RunTrace(INIT, visible + [v]).Some?
    ensures RunTrace(INIT, visible).Some? && Enabled(RunTrace(INIT, visible).value, v)
    ensures RunTrace(INIT, visible + [v]).value == Apply(RunTrace(INIT, visible).value, v)
  {
    assert (visible + [v])[..|visible|] == visible;
  }

  lemma ReplaysMore(trace: seq<L.Step>, visible: seq<Step>, v: Step, k: L.Key)
    requires Replays(trace, visible, k) && RunTrace(INIT, visible + [v]).Some?
    ensures Replays(trace + LockSteps(v, k), visible + [v], k)
  {
    LastQueueStep(visible, v);
    QueueStepOnLock(RunTrace(INIT, visible).value, v, L.RunTrace(L.INIT, trace).value, k);
    AppendedIsOneKey(trace, v, k);
    AppendedIsVisible(trace, v, k);
    AppendedRuns(trace, v, k);
  }

  lemma {:induction false} QueueRunIsLockRun(visible: seq<Step>, k: L.Key)
    requires RunTrace(INIT, visible).Some?
    ensures Replays(Eager(visible, k), visible, k)
  {
    if visible != [] {
      var init, v := visible[..|visible| - 1], visible[|visible| - 1];
      assert visible == init + [v];
      LastQueueStep(init, v);
      QueueRunIsLockRun(init, k);
      ReplaysMore(Eager(init, k), init, v, k);
    }
  }

  /**
    Waiting on the last bare gate is waiting on the chained tail: the queue and the lock used with
    a single key have the same visible runs, ending in the same phases.
   */
  lemma BareGateEquivalence(visible: seq<Step>, phases: seq<L.Phase>, k: L.Key)
    ensures (RunTrace(INIT, visible).Some? && Phases(RunTrace(INIT, visible).value) == phases)
       <==> exists trace :: OneKey(trace, k) && L.RunTrace(L.INIT, trace).Some? && Visible(trace) == visible
                            && LockPhases(L.RunTrace(L.INIT, trace).value) == phases
  {
    if RunTrace(INIT, visible).Some? { QueueRunIsLockRun(visible, k); }
    forall trace | OneKey(trace, k) && L.RunTrace(L.INIT, trace).Some? && Visible(trace) == visible
      ensures RunTrace(INIT, visible).Some? && LockPhases(L.RunTrace(L.INIT, trace).value) == Phases(RunTrace(INIT, visible).value)
    {
      LockRunIsQueueRun(trace, k);
    }
  }

  // ---- the object ----------------------------------------------------------------------------

  class ApplicationCommandCoordinator {
    var tail: Option<RunId>
    // The calls made so far, each with the gate it awaits.
    var runs: seq<Run>

    function State(): QueueState
      reads this
    {
      QueueState(runs, tail)
    }

    constructor ()
      ensures State() == INIT && Inv(State())
    {
      tail, runs := None, [];
    }

    /** The synchronous part of `runExclusive`: replace the tail by a fresh gate. */
    method Arrive() returns (run: RunId)
      requires Inv(State())
      modifies this
      ensures State() == Apply(old(State()), Step.Arrive) && Inv(State())
      ensures run == |old(runs)|
    {
      StepKeepsInv(State(), Step.Arrive);
      var previous := tail;
      run := |runs|;
      tail := Some(run);
      runs := runs + [Run(previous, L.Waiting)];
    }

    /** `await previous` resumes: every earlier command has ended. */
    method Start(run: RunId)
      requires Inv(State()) && Enabled(State(), Step.Start(run))
      modifies this`runs
      ensures State() == Apply(old(State()), Step.Start(run)) && Inv(State())
      ensures EndedCount(State()) == run
    {
      StepKeepsInv(State(), Step.Start(run));
      assert GateReleased(State(), runs[run].previous);
      runs := runs[run := runs[run].(phase := L.Running)];
      EndedIs(State(), run);
    }

    /** The `finally` block. */
    method Finish(run: RunId, threw: bool)
      requires Inv(State()) && Enabled(State(), Step.Finish(run, threw))
      modifies this`runs
      ensures State() == Apply(old(State()), Step.Finish(run, threw)) && Inv(State())
      ensures EndedCount(State()) == run + 1
    {
      StepKeepsInv(State(), Step.Finish(run, threw));
      assert forall i :: run < i < |runs| ==> runs[i].phase.Waiting?;
      runs := runs[run := runs[run].(phase := L.Finished(threw))];
      EndedIs(State(), run + 1);
    }
  }
}
