/** `AsyncMutex.run`: each arrival awaits the promise left by the one before it. The protected
    state is read when the work starts and written when it ends; in between anything may run. */
module Mutex {
  datatype Phase<S> = Waiting | Working(seen: S) | Finished

  /** `work` is the effect of the whole critical section on the state it sees; work that throws
      leaves the state as it was, and releases all the same. */
  datatype Entry<!S> = Entry(previous: nat, mine: nat, work: S -> S, phase: Phase<S>)

  /** Promises are numbered; `tail` is the field of the mutex, `next` the next fresh promise. */
  datatype Lock<!S> = Lock(
    tail: nat, next: nat, resolved: set<nat>, entries: seq<Entry<S>>, state: S, entered: seq<nat>)

  datatype Step<!S> = Arrive(work: S -> S) | Enter(k: nat) | Leave(k: nat)

  function Next<S>(m: Lock<S>, s: Step<S>): Lock<S> {
    match s
    case Arrive(work) =>
      m.(entries := m.entries + [Entry(m.tail, m.next, work, Waiting)], tail := m.next, next := m.next + 1)
    case Enter(k) =>
      if k >= |m.entries| || !m.entries[k].phase.Waiting? || m.entries[k].previous !in m.resolved then m
      else m.(entries := m.entries[k := m.entries[k].(phase := Working(m.state))], entered := m.entered + [k])
    case Leave(k) =>
      if k >= |m.entries| || !m.entries[k].phase.Working? then m
      else m.(entries := m.entries[k := m.entries[k].(phase := Finished)], resolved := m.resolved + {m.entries[k].mine},
              state := m.entries[k].work(m.entries[k].phase.seen))
  }

  function Run<S>(m: Lock<S>, steps: seq<Step<S>>): Lock<S> {
    if steps == [] then m else Next(Run(m, steps[..|steps| - 1]), steps[|steps| - 1])
  }

  function Start<S>(state: S): Lock<S> { Lock(0, 1, {0}, [], state, []) }

  /** The works of the first `n` arrivals, one after the other. */
  function Serial<S>(state: S, entries: seq<Entry<S>>, n: nat): S
    requires n <= |entries|
  {
    if n == 0 then state else entries[n - 1].work(Serial(state, entries, n - 1))
  }

  lemma {:induction false} SerialReads<S>(state: S, a: seq<Entry<S>>, b: seq<Entry<S>>, n: nat)
    requires n <= |a| && n <= |b| && forall i :: 0 <= i < n ==> a[i].work == b[i].work
    ensures Serial(state, a, n) == Serial(state, b, n)
  {
    if n > 0 { SerialReads(state, a, b, n - 1); }
  }

  /** `done` arrivals have finished, the first ones; at most the next one is working; the rest wait. */
  predicate PhaseOk<S>(m: Lock<S>, done: nat, k: nat)
    requires k < |m.entries|
  {
    var e := m.entries[k];
    && e.previous == k && e.mine == k + 1
    && (k < done ==> e.phase.Finished?) && (k == done ==> !e.phase.Finished?) && (k > done ==> e.phase.Waiting?)
  }

  predicate Busy<S>(m: Lock<S>, done: nat) { done < |m.entries| && m.entries[done].phase.Working? }

  ghost predicate InvAt<S>(initial: S, m: Lock<S>, done: nat) {
    && done <= |m.entries| && m.tail == |m.entries| && m.next == |m.entries| + 1
    && (forall p: nat :: p in m.resolved <==> p <= done)
    && (forall k :: 0 <= k < |m.entries| ==> PhaseOk(m, done, k))
    && |m.entered| == (if Busy(m, done) then done + 1 else done)
    && (forall i :: 0 <= i < |m.entered| ==> m.entered[i] == i)
    && m.state == Serial(initial, m.entries, done)
    && (Busy(m, done) ==> m.entries[done].phase.seen == m.state)
  }

  lemma NextKeepsInv<S>(initial: S, m: Lock<S>, done: nat, s: Step<S>) returns (done': nat)
    requires InvAt(initial, m, done)
    ensures InvAt(initial, Next(m, s), done')
  {
    var m' := Next(m, s);
    if (s.Enter? || s.Leave?) && s.k < |m.entries| { assert PhaseOk(m, done, s.k); }
    if done < |m.entries| { assert PhaseOk(m, done, done); }
    if done + 1 < |m.entries| { assert PhaseOk(m, done, done + 1); }
    done' := if s.Leave? && s.k == done && Busy(m, done) then done + 1 else done;
    SerialReads(initial, m.entries, m'.entries, done);
    forall k | 0 <= k < |m'.entries| ensures PhaseOk(m', done', k) {
      if k < |m.entries| { assert PhaseOk(m, done, k); }
    }
  }

  lemma {:induction false} RunKeepsInv<S>(initial: S, steps: seq<Step<S>>) returns (done: nat)
    ensures InvAt(initial, Run(Start(initial), steps), done)
  {
    if steps == [] {
      done := 0;
    } else {
      var before := RunKeepsInv(initial, steps[..|steps| - 1]);
      done := NextKeepsInv(initial, Run(Start(initial), steps[..|steps| - 1]), before, steps[|steps| - 1]);
    }
  }

  /** For any arrivals: at most one section at a time, entered in the order of arrival. */
  lemma MutualExclusionFifo<S>(initial: S, steps: seq<Step<S>>)
    ensures var m := Run(Start(initial), steps);
      (forall i, j :: 0 <= i < j < |m.entries| ==> !(m.entries[i].phase.Working? && m.entries[j].phase.Working?))
      && (forall i :: 0 <= i < |m.entered| ==> m.entered[i] == i)
  {
    var done := RunKeepsInv(initial, steps);
    var m := Run(Start(initial), steps);
    forall i, j | 0 <= i < j < |m.entries| ensures !(m.entries[i].phase.Working? && m.entries[j].phase.Working?) {
      assert PhaseOk(m, done, i) && PhaseOk(m, done, j);
    }
  }

  /** The state is what the finished sections produce one after the other in order of arrival. */
  lemma Serializable<S>(initial: S, steps: seq<Step<S>>) returns (done: nat)
    ensures var m := Run(Start(initial), steps);
      done <= |m.entries| && m.state == Serial(initial, m.entries, done)
      && (forall k :: 0 <= k < |m.entries| ==> (m.entries[k].phase.Finished? <==> k < done))
  {
    done := RunKeepsInv(initial, steps);
    var m := Run(Start(initial), steps);
    forall k | 0 <= k < |m.entries| ensures m.entries[k].phase.Finished? <==> k < done {
      assert PhaseOk(m, done, k);
    }
  }

  /** Nobody is left behind: while a section waits, one is working or the first waiting one can enter. */
  lemma NeverStuck<S>(initial: S, steps: seq<Step<S>>, k: nat) returns (i: nat)
    requires k < |Run(Start(initial), steps).entries| && Run(Start(initial), steps).entries[k].phase.Waiting?
    ensures var m := Run(Start(initial), steps);
      i <= k && (m.entries[i].phase.Working? || (m.entries[i].phase.Waiting? && m.entries[i].previous in m.resolved))
  {
    var done := RunKeepsInv(initial, steps);
    var m := Run(Start(initial), steps);
    i := done;
    assert PhaseOk(m, done, k);
    assert PhaseOk(m, done, done);
  }
}
