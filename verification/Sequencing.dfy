/**
  Commands that run one at a time, in arrival order, over a shared state. What a command does is
  left open: `after` is the state it leaves when it starts from a given state and nothing comes in
  between, `alone` says that it stands where it would stand then.
 */
module Sequencing {
  datatype Discipline<!T, !D> = Discipline(after: (T, D) -> D, alone: (T, D) -> bool, replied: T -> bool, untouched: T -> bool)

  /** A command that has not begun has done nothing. */
  ghost predicate Sound<T(!new), D(!new)>(k: Discipline<T, D>) {
    forall t, d :: k.untouched(t) ==> k.alone(t, d) && k.after(t, d) == d
  }

  /** The state after the first `n` commands, run one at a time in arrival order. */
  function Serial<T, D>(k: Discipline<T, D>, start: D, tasks: seq<T>, n: nat): D
    requires n <= |tasks|
  {
    if n == 0 then start else k.after(tasks[n - 1], Serial(k, start, tasks, n - 1))
  }

  /** The first `e` commands ran alone, the next one is running alone, and the rest have not begun. */
  ghost predicate OneAtATime<T(!new), D(!new)>(k: Discipline<T, D>, start: D, tasks: seq<T>, state: D, e: nat) {
    && e <= |tasks|
    && (forall i :: 0 <= i < e ==> k.alone(tasks[i], Serial(k, start, tasks, i)) && k.replied(tasks[i]))
    && (e < |tasks| ==> var before := Serial(k, start, tasks, e); k.alone(tasks[e], before) && state == k.after(tasks[e], before))
    && (e == |tasks| ==> state == Serial(k, start, tasks, e))
    && (forall i :: e < i < |tasks| ==> k.untouched(tasks[i]))
  }

  lemma {:induction false} SerialDependsOnPrefix<T(!new), D(!new)>(k: Discipline<T, D>, start: D, a: seq<T>, b: seq<T>, n: nat)
    requires n <= |a| && n <= |b| && forall i :: 0 <= i < n ==> a[i] == b[i]
    ensures Serial(k, start, a, n) == Serial(k, start, b, n)
  {
    if n > 0 { SerialDependsOnPrefix(k, start, a, b, n - 1); }
  }

  lemma SamePrefix<T(!new), D(!new)>(k: Discipline<T, D>, start: D, a: seq<T>, b: seq<T>, e: nat)
    requires e <= |a| && e <= |b| && forall i :: 0 <= i < e ==> a[i] == b[i]
    ensures forall i :: 0 <= i <= e ==> Serial(k, start, a, i) == Serial(k, start, b, i)
  {
    forall i | 0 <= i <= e ensures Serial(k, start, a, i) == Serial(k, start, b, i) {
      SerialDependsOnPrefix(k, start, a, b, i);
    }
  }

  lemma Joins<T(!new), D(!new)>(k: Discipline<T, D>, start: D, tasks: seq<T>, state: D, e: nat, t: T)
    requires Sound(k) && OneAtATime(k, start, tasks, state, e) && k.untouched(t)
    ensures OneAtATime(k, start, tasks + [t], state, e)
  {
    SamePrefix(k, start, tasks, tasks + [t], e);
  }

  /** The command whose turn it is goes on, and still stands where it would stand alone. */
  lemma Continues<T(!new), D(!new)>(k: Discipline<T, D>, start: D, tasks: seq<T>, state: D, e: nat, t: T)
    requires OneAtATime(k, start, tasks, state, e) && e < |tasks| && k.alone(t, Serial(k, start, tasks, e))
    ensures OneAtATime(k, start, tasks[e := t], k.after(t, Serial(k, start, tasks, e)), e)
  {
    SamePrefix(k, start, tasks, tasks[e := t], e);
  }

  lemma Ends<T(!new), D(!new)>(k: Discipline<T, D>, start: D, tasks: seq<T>, state: D, e: nat)
    requires Sound(k) && OneAtATime(k, start, tasks, state, e) && e < |tasks| && k.replied(tasks[e])
    ensures OneAtATime(k, start, tasks, state, e + 1)
  {
    assert state == Serial(k, start, tasks, e + 1);
  }
}
