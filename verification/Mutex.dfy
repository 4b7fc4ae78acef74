/** The mutex as the C code updates it (stdlib/mutex/mutex.c), and what its functions are in the
    steps of the protocol. */

module Mutex {
  import opened Int64
  import opened Options
  import opened Threads

  /** `pthread_mutex_t` is its owner. */
  class MutexHandle {
    var owner: Option<nat>
    var lockCount: int

    /** What holds between calls. */
    predicate Settled()
      reads this
    {
      lockCount == if owner.Some? then 1 else 0
    }

    constructor ()
      ensures owner == None && lockCount == 0 && Settled()
    {
      owner, lockCount := None, 0;
    }

    /** Returns once the mutex is free; until then the caller is blocked. */
    method Enter(t: nat)
      requires owner.None? && Settled()
      modifies this
      ensures owner == Some(t) && lockCount == 1 && Settled()
    {
      owner := Some(t);
      lockCount := lockCount + 1;
    }

    method Exit()
      requires owner.Some? && Settled()
      modifies this
      ensures owner == None && lockCount == 0 && Settled()
    {
      lockCount := lockCount - 1;
      owner := None;
    }

    /** Never blocks: 1 if the mutex was free and is now the caller's, 0 if nothing changed. */
    method TryEnter(t: nat) returns (got: int)
      requires Settled()
      modifies this
      ensures Settled() && (got == 1 <==> old(owner).None?) && (got == 0 <==> old(owner).Some?)
      ensures owner == if got == 1 then Some(t) else old(owner)
    {
      if owner.None? {
        owner := Some(t);
        lockCount := lockCount + 1;
        return 1;
      }
      got := 0;
    }
  }

  /** One round of a worker: `using (m) { counter = counter + 1; }`. */
  class Counter {
    var value: i64

    method Round(m: MutexHandle, t: nat)
      requires m.owner.None? && m.Settled()
      modifies this, m
      ensures value == Wrap(old(value) + 1) && m.owner == None && m.Settled()
    {
      m.Enter(t);
      var loaded: int := value;
      var added := Wrap(loaded + 1);
      value := added;
      m.Exit();
    }
  }

  /** The same worker scheduled `n` times in a row. */
  function Alone(t: nat, n: nat): seq<Option<nat>> { seq(n, i => Some(t)) }

  lemma AloneStep(s: State, tasks: seq<Task>, t: nat, n: nat)
    requires n > 0
    ensures Follow(s, tasks, Alone(t, n)) == match Turn(s, tasks, Some(t)) case None => None case Some(s1) => Follow(s1, tasks, Alone(t, n - 1))
  {
    assert Alone(t, n)[0] == Some(t) && Alone(t, n)[1..] == Alone(t, n - 1);
  }

  lemma AloneTwice(s: State, tasks: seq<Task>, t: nat, s1: State, s2: State, n: nat)
    requires n >= 2 && Turn(s, tasks, Some(t)) == Some(s1) && Turn(s1, tasks, Some(t)) == Some(s2)
    ensures Follow(s, tasks, Alone(t, n)) == Follow(s2, tasks, Alone(t, n - 2))
  {
    hide Turn, Follow, Alone;
    AloneStep(s, tasks, t, n);
    AloneStep(s1, tasks, t, n - 1);
  }

  predicate Idle(s: State, t: nat) {
    s.State? && t < |s.workers| && |s.handles| == |s.workers| && s.workers[t].pc.Ready? && s.workers[t].left > 0
  }

  /** Worker `t` has the mutex, is at `pc` and has `count` in `lock_count` and `value` in the
      counter; all else is as in `s`. */
  function Within(s: State, t: nat, pc: Pc, count: int, value: i64): State
    requires Idle(s, t)
  {
    s.(workers := s.workers[t := s.workers[t].(pc := pc)], owner := Some(t), lockCount := count, counter := value)
  }

  /** Nine steps without interruption are one `Round`: the counter is one more, the mutex is free
      again, and one round less is left. */
  lemma RoundIsSteps(s: State, tasks: seq<Task>, t: nat)
    requires Idle(s, t) && s.owner.None? && s.lockCount == 0
    ensures Follow(s, tasks, Alone(t, 9)) ==
      Some(s.(counter := Wrap(s.counter + 1), workers := s.workers[t := s.workers[t].(left := s.workers[t].left - 1)]))
  {
    hide Follow, Alone, Wrap;
    var w, v, v1 := s.workers[t], s.counter, Wrap(s.counter + 1);
    RoundEnter(s, tasks, t);
    RoundBody(s, tasks, t);
    RoundExit(s, tasks, t);
    var s3, s6 := Within(s, t, Body, 1, v), Within(s, t, Stored, 1, v1);
    var s9 := s.(counter := v1, workers := s.workers[t := w.(left := w.left - 1)]);
    AloneTwice(s, tasks, t, Within(s, t, Acquired, 0, v), Within(s, t, CountLoaded(0), 0, v), 9);
    AloneStep(Within(s, t, CountLoaded(0), 0, v), tasks, t, 7);
    AloneTwice(s3, tasks, t, Within(s, t, Loaded(v), 1, v), Within(s, t, Added(v1), 1, v), 6);
    AloneStep(Within(s, t, Added(v1), 1, v), tasks, t, 4);
    AloneTwice(s6, tasks, t, Within(s, t, ExitLoaded(1), 1, v1), Within(s, t, Releasing, 0, v1), 3);
    AloneStep(Within(s, t, Releasing, 0, v1), tasks, t, 1);
    AloneNone(s9, tasks, t);
  }

  lemma AloneNone(s: State, tasks: seq<Task>, t: nat)
    ensures Follow(s, tasks, Alone(t, 0)) == Some(s)
  {
  }

  /** The three steps whose joint effect is that of `MutexHandle.Enter`. */
  lemma RoundEnter(s: State, tasks: seq<Task>, t: nat)
    requires Idle(s, t) && s.owner.None? && s.lockCount == 0
    ensures Turn(s, tasks, Some(t)) == Some(Within(s, t, Acquired, 0, s.counter))
    ensures Turn(Within(s, t, Acquired, 0, s.counter), tasks, Some(t)) == Some(Within(s, t, CountLoaded(0), 0, s.counter))
    ensures Turn(Within(s, t, CountLoaded(0), 0, s.counter), tasks, Some(t)) == Some(Within(s, t, Body, 1, s.counter))
  {
    PcTwice(s, t, Acquired, CountLoaded(0));
    PcTwice(s, t, CountLoaded(0), Body);
  }

  lemma RoundBody(s: State, tasks: seq<Task>, t: nat)
    requires Idle(s, t)
    ensures var v, v1 := s.counter, Wrap(s.counter + 1);
      && Turn(Within(s, t, Body, 1, v), tasks, Some(t)) == Some(Within(s, t, Loaded(v), 1, v))
      && Turn(Within(s, t, Loaded(v), 1, v), tasks, Some(t)) == Some(Within(s, t, Added(v1), 1, v))
      && Turn(Within(s, t, Added(v1), 1, v), tasks, Some(t)) == Some(Within(s, t, Stored, 1, v1))
  {
    hide Wrap;
    var v, v1 := s.counter, Wrap(s.counter + 1);
    PcTwice(s, t, Body, Loaded(v));
    PcTwice(s, t, Loaded(v), Added(v1));
    PcTwice(s, t, Added(v1), Stored);
  }

  /** The three steps whose joint effect is that of `MutexHandle.Exit`. */
  lemma RoundExit(s: State, tasks: seq<Task>, t: nat)
    requires Idle(s, t) && s.owner.None? && s.lockCount == 0
    ensures var w, v1 := s.workers[t], Wrap(s.counter + 1);
      && Turn(Within(s, t, Stored, 1, v1), tasks, Some(t)) == Some(Within(s, t, ExitLoaded(1), 1, v1))
      && Turn(Within(s, t, ExitLoaded(1), 1, v1), tasks, Some(t)) == Some(Within(s, t, Releasing, 0, v1))
      && Turn(Within(s, t, Releasing, 0, v1), tasks, Some(t)) == Some(s.(counter := v1, workers := s.workers[t := w.(left := w.left - 1)]))
  {
    hide Wrap;
    PcTwice(s, t, Stored, ExitLoaded(1));
    PcTwice(s, t, ExitLoaded(1), Releasing);
    var w := s.workers[t];
    assert s.workers[t := w.(pc := Releasing)][t := w.(left := w.left - 1)] == s.workers[t := w.(left := w.left - 1)];
  }

  lemma PcTwice(s: State, t: nat, pc: Pc, pc1: Pc)
    requires Idle(s, t)
    ensures var ws := s.workers[t := s.workers[t].(pc := pc)]; ws[t := ws[t].(pc := pc1)] == s.workers[t := s.workers[t].(pc := pc1)]
  {
  }
}
