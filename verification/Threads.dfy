/** `using (m) { counter = counter + 1; }` in any number of threads (stdlib/mutex/mutex.c,
    stdlib/threads/threads.c, src/codegen/stmt.c:739-843), one memory access a step. */

module Threads {
  import opened Int64
  import opened Options

  /** A worker's program point.  The values in parentheses are in the thread's registers. */
  datatype Pc =
    | Ready
    | Acquired
    | CountLoaded(c: int)
    | Body
    | Loaded(v: i64)
    | Added(v: i64)
    | Stored
    | ExitLoaded(c: int)
    | Releasing
    | Returning(r: int)
    | Finishing
    | Dead

  /** What a thread is started with: how often it goes round and what its function returns. */
  datatype Task = Task(rounds: nat, answer: int)

  datatype Worker = Worker(pc: Pc, left: nat, task: Task)

  /** The heap record `thread_run` allocates and `thread_get` frees. */
  datatype Handle = Handle(result: int, done: bool, freed: bool)

  /** The main thread starts every task, then gets every result, both in order. */
  datatype Main = Starting(i: nat) | Joining(i: nat) | Joined(i: nat) | Fetched(i: nat, r: int) | Ended

  datatype State = Fault | State(
    owner: Option<nat>, lockCount: int, counter: i64,
    workers: seq<Worker>, handles: seq<Handle>, main: Main, results: seq<int>)

  function Initial(start: i64): State {
    State(None, 0, start, [], [], Starting(0), [])
  }

  function At(s: State, t: nat, pc: Pc): State
    requires s.State? && t < |s.workers|
  {
    s.(workers := s.workers[t := s.workers[t].(pc := pc)])
  }

  /** The next step of worker `t`; none if it is blocked on the mutex or has finished.
      Touching a freed handle is a fault. */
  function WorkerStep(s: State, t: nat): Option<State>
    requires s.State? && t < |s.workers| && |s.handles| == |s.workers|
  {
    var w := s.workers[t];
    match w.pc
    case Ready =>
      if w.left == 0 then Some(At(s, t, Returning(w.task.answer)))
      else if s.owner.None? then Some(At(s, t, Acquired).(owner := Some(t)))
      else None
    case Acquired => Some(At(s, t, CountLoaded(s.lockCount)))
    case CountLoaded(c) => Some(At(s, t, Body).(lockCount := c + 1))
    case Body => Some(At(s, t, Loaded(s.counter)))
    case Loaded(v) => Some(At(s, t, Added(Wrap(v + 1))))
    case Added(v) => Some(At(s, t, Stored).(counter := v))
    case Stored => Some(At(s, t, ExitLoaded(s.lockCount)))
    case ExitLoaded(c) => Some(At(s, t, Releasing).(lockCount := c - 1))
    case Releasing =>
      Some(s.(owner := None, workers := s.workers[t := w.(pc := Ready, left := if w.left == 0 then 0 else w.left - 1)]))
    case Returning(r) =>
      if s.handles[t].freed then Some(Fault)
      else Some(At(s, t, Finishing).(handles := s.handles[t := s.handles[t].(result := r)]))
    case Finishing =>
      if s.handles[t].freed then Some(Fault)
      else Some(At(s, t, Dead).(handles := s.handles[t := s.handles[t].(done := true)]))
    case Dead => None
  }

  /** The next step of the main thread; none if it waits for a worker or has ended. */
  function MainStep(s: State, tasks: seq<Task>): Option<State>
    requires s.State? && |s.handles| == |s.workers|
  {
    match s.main
    case Starting(i) =>
      if i >= |tasks| then Some(s.(main := Joining(0)))
      else Some(s.(
        workers := s.workers + [Worker(Ready, tasks[i].rounds, tasks[i])],
        handles := s.handles + [Handle(0, false, false)],
        main := Starting(i + 1)))
    case Joining(i) =>
      if i >= |s.workers| then Some(s.(main := Ended))
      else if s.workers[i].pc.Dead? then Some(s.(main := Joined(i)))
      else None
    case Joined(i) =>
      if i >= |s.handles| || s.handles[i].freed then Some(Fault)
      else Some(s.(main := Fetched(i, s.handles[i].result)))
    case Fetched(i, r) =>
      if i >= |s.handles| || s.handles[i].freed then Some(Fault)
      else Some(s.(handles := s.handles[i := s.handles[i].(freed := true)], main := Joining(i + 1), results := s.results + [r]))
    case Ended => None
  }

  /** One step of whoever is scheduled: a worker, or the main thread. */
  function Turn(s: State, tasks: seq<Task>, who: Option<nat>): Option<State> {
    if s.Fault? || |s.handles| != |s.workers| then None
    else if who.None? then MainStep(s, tasks)
    else if who.value < |s.workers| then WorkerStep(s, who.value)
    else None
  }

  /** A schedule is followed step by step; it must never pick a thread that cannot move. */
  function Follow(s: State, tasks: seq<Task>, schedule: seq<Option<nat>>): Option<State>
    decreases |schedule|
  {
    if schedule == [] then Some(s)
    else
      match Turn(s, tasks, schedule[0])
      case None => None
      case Some(s1) => Follow(s1, tasks, schedule[1..])
  }

  /** Between taking the mutex and giving it back. */
  predicate Holding(pc: Pc) {
    pc.Acquired? || pc.CountLoaded? || pc.Body? || pc.Loaded? || pc.Added? || pc.Stored? || pc.ExitLoaded? || pc.Releasing?
  }

  /** In the body of the `using`. */
  predicate InBody(pc: Pc) {
    pc.Body? || pc.Loaded? || pc.Added? || pc.Stored?
  }

  /** Past the store of this round. */
  predicate Counted(pc: Pc) {
    pc.Stored? || pc.ExitLoaded? || pc.Releasing?
  }

  predicate Over(pc: Pc) {
    pc.Returning? || pc.Finishing? || pc.Dead?
  }

  /** The rounds a worker has counted. */
  function Rounds(w: Worker): int {
    w.task.rounds - w.left + if Counted(w.pc) then 1 else 0
  }

  function TotalRounds(ws: seq<Worker>): int {
    if ws == [] then 0 else TotalRounds(ws[..|ws| - 1]) + Rounds(ws[|ws| - 1])
  }

  function TotalTasks(tasks: seq<Task>): nat {
    if tasks == [] then 0 else TotalTasks(tasks[..|tasks| - 1]) + tasks[|tasks| - 1].rounds
  }

  /** `lock_count` while the holder is at `pc`. */
  predicate CountFits(pc: Pc, count: int) {
    match pc
    case Acquired => count == 0
    case CountLoaded(c) => count == 0 && c == 0
    case ExitLoaded(c) => count == 1 && c == 1
    case Releasing => count == 0
    case _ => count == 1
  }

  predicate WorkerFits(w: Worker, counter: i64) {
    && (Holding(w.pc) ==> w.left > 0) && w.left <= w.task.rounds
    && (w.pc.Loaded? ==> w.pc.v == counter)
    && (w.pc.Added? ==> w.pc.v == Wrap(counter + 1))
    && (Over(w.pc) ==> w.left == 0)
    && (w.pc.Returning? ==> w.pc.r == w.task.answer)
  }

  predicate HandleFits(h: Handle, w: Worker) {
    && ((w.pc.Finishing? || w.pc.Dead?) ==> h.result == w.task.answer)
    && (h.done <==> w.pc.Dead?)
    && (h.freed ==> w.pc.Dead?)
  }

  /** How many results the main thread has got. */
  function Got(m: Main, n: nat): nat {
    match m
    case Starting(_) => 0
    case Joining(i) => i
    case Joined(i) => i
    case Fetched(i, _) => i
    case Ended => n
  }

  predicate MainFits(s: State, tasks: seq<Task>)
    requires s.State?
  {
    && |s.handles| == |s.workers| <= |tasks|
    && (forall i :: 0 <= i < |s.workers| ==> s.workers[i].task == tasks[i])
    && (if s.main.Starting? then s.main.i == |s.workers| else |s.workers| == |tasks|)
    && Got(s.main, |tasks|) == |s.results| <= |s.workers|
    && (forall i :: 0 <= i < |s.handles| ==> (s.handles[i].freed <==> i < |s.results|))
    && (forall i :: 0 <= i < |s.results| ==> s.results[i] == tasks[i].answer)
    && ((s.main.Joined? || s.main.Fetched?) ==> s.main.i < |s.workers| && s.workers[s.main.i].pc.Dead?)
    && (s.main.Fetched? ==> s.main.r == tasks[s.main.i].answer)
  }

  /** The owner is the one thread between `enter` and `exit`, and `lock_count` is what its
      program point says. */
  predicate Exclusive(s: State)
    requires s.State?
  {
    && (forall i :: 0 <= i < |s.workers| ==> (Holding(s.workers[i].pc) <==> s.owner == Some(i)))
    && (s.owner.Some? ==> s.owner.value < |s.workers| && CountFits(s.workers[s.owner.value].pc, s.lockCount))
    && (s.owner.None? ==> s.lockCount == 0)
  }

  predicate WorkersFit(s: State)
    requires s.State?
  {
    forall i :: 0 <= i < |s.workers| ==> WorkerFits(s.workers[i], s.counter)
  }

  predicate HandlesFit(s: State)
    requires s.State?
  {
    |s.handles| == |s.workers| && forall i :: 0 <= i < |s.workers| ==> HandleFits(s.handles[i], s.workers[i])
  }

  /** The invariant; the counter has every round counted so far. */
  predicate Inv(s: State, tasks: seq<Task>, start: i64) {
    && s.State?
    && MainFits(s, tasks)
    && WorkersFit(s)
    && HandlesFit(s)
    && Exclusive(s)
    && s.counter == Wrap(start + TotalRounds(s.workers))
  }

  lemma {:induction false} TotalUpdate(ws: seq<Worker>, t: nat, w: Worker)
    requires t < |ws|
    ensures TotalRounds(ws[t := w]) == TotalRounds(ws) - Rounds(ws[t]) + Rounds(w)
    decreases |ws|
  {
    var n := |ws| - 1;
    if t < n {
      TotalUpdate(ws[..n], t, w);
      assert ws[t := w][..n] == ws[..n][t := w];
    } else {
      assert ws[t := w][..n] == ws[..n];
    }
  }

  lemma WrapNext(a: int, b: i64)
    requires b == Wrap(a)
    ensures Wrap(b + 1) == Wrap(a + 1)
  {
  }

  /** A step leaves all workers but its own alone. */
  lemma StepLocal(s: State, t: nat)
    requires s.State? && t < |s.workers| && |s.handles| == |s.workers| && HandlesFit(s) && WorkerStep(s, t).Some?
    ensures var s1 := WorkerStep(s, t).value;
      && s1.State? && |s1.workers| == |s.workers| && s1.workers == s.workers[t := s1.workers[t]]
      && s1.workers[t].task == s.workers[t].task && s1.main == s.main && s1.results == s.results
      && |s1.handles| == |s.handles| && s1.handles == s.handles[t := s1.handles[t]]
      && s1.handles[t].freed == s.handles[t].freed
      && (s.workers[t].pc.Dead? <==> false) && (!Holding(s.workers[t].pc) ==> s1.counter == s.counter)
  {
    assert HandleFits(s.handles[t], s.workers[t]);
  }

  lemma ExclusiveKeeps(s: State, t: nat)
    requires s.State? && t < |s.workers| && HandlesFit(s) && Exclusive(s) && WorkersFit(s) && WorkerStep(s, t).Some?
    ensures WorkerStep(s, t).value.State? && Exclusive(WorkerStep(s, t).value)
  {
    StepLocal(s, t);
    assert WorkerFits(s.workers[t], s.counter);
  }

  /** Only the holder touches the counter, so what it has loaded is still current. */
  lemma WorkersKeep(s: State, t: nat)
    requires s.State? && t < |s.workers| && HandlesFit(s) && Exclusive(s) && WorkersFit(s) && WorkerStep(s, t).Some?
    ensures WorkerStep(s, t).value.State? && WorkersFit(WorkerStep(s, t).value)
  {
    hide Wrap;
    StepLocal(s, t);
    var s1 := WorkerStep(s, t).value;
    assert WorkerFits(s.workers[t], s.counter);
    forall i | 0 <= i < |s1.workers| ensures WorkerFits(s1.workers[i], s1.counter) {
      assert WorkerFits(s.workers[i], s.counter);
      if i != t && s1.counter != s.counter {
        assert Holding(s.workers[t].pc) && !Holding(s.workers[i].pc);
      }
    }
  }

  lemma HandlesKeep(s: State, t: nat)
    requires s.State? && t < |s.workers| && HandlesFit(s) && WorkerStep(s, t).Some?
    requires WorkersFit(s)
    ensures WorkerStep(s, t).value.State? && HandlesFit(WorkerStep(s, t).value)
  {
    StepLocal(s, t);
    var s1 := WorkerStep(s, t).value;
    assert HandleFits(s.handles[t], s.workers[t]) && WorkerFits(s.workers[t], s.counter);
    forall i | 0 <= i < |s1.workers| ensures HandleFits(s1.handles[i], s1.workers[i]) {
      assert HandleFits(s.handles[i], s.workers[i]);
    }
  }

  lemma CounterKeeps(s: State, start: i64, t: nat)
    requires s.State? && t < |s.workers| && HandlesFit(s) && WorkersFit(s) && WorkerStep(s, t).Some?
    requires s.counter == Wrap(start + TotalRounds(s.workers))
    ensures WorkerStep(s, t).value.State?
    ensures WorkerStep(s, t).value.counter == Wrap(start + TotalRounds(WorkerStep(s, t).value.workers))
  {
    hide Wrap;
    StepLocal(s, t);
    var s1 := WorkerStep(s, t).value;
    assert WorkerFits(s.workers[t], s.counter);
    TotalUpdate(s.workers, t, s1.workers[t]);
    WrapNext(start + TotalRounds(s.workers), s.counter);
  }

  lemma WorkerKeeps(s: State, tasks: seq<Task>, start: i64, t: nat)
    requires Inv(s, tasks, start) && t < |s.workers| && WorkerStep(s, t).Some?
    ensures Inv(WorkerStep(s, t).value, tasks, start)
  {
    hide Exclusive, WorkersFit, WorkerStep, TotalRounds, Wrap;
    StepLocal(s, t);
    ExclusiveKeeps(s, t);
    WorkersKeep(s, t);
    HandlesKeep(s, t);
    CounterKeeps(s, start, t);
  }

  lemma MainKeeps(s: State, tasks: seq<Task>, start: i64)
    requires Inv(s, tasks, start) && MainStep(s, tasks).Some?
    ensures Inv(MainStep(s, tasks).value, tasks, start)
  {
    if s.main.Starting? && s.main.i < |tasks| {
      StartKeeps(s, tasks, start);
    } else {
      GetKeeps(s, tasks, start);
    }
  }

  lemma StartKeeps(s: State, tasks: seq<Task>, start: i64)
    requires Inv(s, tasks, start) && s.main.Starting? && s.main.i < |tasks|
    ensures Inv(MainStep(s, tasks).value, tasks, start)
  {
    hide Wrap, Exclusive, WorkersFit, HandlesFit, Holding, CountFits, HandleFits;
    var s1 := MainStep(s, tasks).value;
    assert s1.workers[..|s1.workers| - 1] == s.workers;
    OneMore(s, s1, tasks[s.main.i]);
    assert MainFits(s1, tasks) by { FitsMore(s, s1, tasks); }
  }

  lemma FitsMore(s: State, s1: State, tasks: seq<Task>)
    requires s.State? && MainFits(s, tasks) && s.main.Starting? && s.main.i < |tasks| && s1.State?
    requires s1.workers == s.workers + [Worker(Ready, tasks[s.main.i].rounds, tasks[s.main.i])]
    requires s1.handles == s.handles + [Handle(0, false, false)] && s1.main == Starting(s.main.i + 1) && s1.results == s.results
    ensures MainFits(s1, tasks)
  {
  }

  lemma OneMore(s: State, s1: State, task: Task)
    requires s.State? && s1.State? && WorkersFit(s) && HandlesFit(s) && Exclusive(s)
    requires s1.workers == s.workers + [Worker(Ready, task.rounds, task)] && s1.handles == s.handles + [Handle(0, false, false)]
    requires s1.owner == s.owner && s1.lockCount == s.lockCount && s1.counter == s.counter
    ensures WorkersFit(s1) && HandlesFit(s1) && Exclusive(s1)
  {
    hide Wrap;
    forall i | 0 <= i < |s1.workers| ensures WorkerFits(s1.workers[i], s1.counter) && HandleFits(s1.handles[i], s1.workers[i]) {
      if i < |s.workers| {
        assert s1.workers[i] == s.workers[i] && s1.handles[i] == s.handles[i];
      }
    }
    forall i | 0 <= i < |s1.workers| ensures Holding(s1.workers[i].pc) <==> s1.owner == Some(i) {
      if i < |s.workers| {
        assert s1.workers[i] == s.workers[i];
      }
    }
  }

  lemma GetKeeps(s: State, tasks: seq<Task>, start: i64)
    requires Inv(s, tasks, start) && MainStep(s, tasks).Some? && !(s.main.Starting? && s.main.i < |tasks|)
    ensures Inv(MainStep(s, tasks).value, tasks, start)
  {
    hide Wrap, Exclusive, WorkersFit, TotalRounds;
    var s1 := MainStep(s, tasks).value;
    if s.main.Joined? || s.main.Fetched? {
      var i := s.main.i;
      assert HandleFits(s.handles[i], s.workers[i]);
    }
    SameFits(s, s1);
  }

  lemma SameFits(s: State, s1: State)
    requires s.State? && s1.State? && s1.workers == s.workers && s1.counter == s.counter
    requires s1.owner == s.owner && s1.lockCount == s.lockCount
    ensures WorkersFit(s) ==> WorkersFit(s1)
    ensures Exclusive(s) ==> Exclusive(s1)
  {
  }

  /** Every interleaving keeps the invariant and never touches a freed handle. */
  lemma {:induction false} FollowKeeps(s: State, tasks: seq<Task>, start: i64, schedule: seq<Option<nat>>)
    requires Inv(s, tasks, start)
    ensures var r := Follow(s, tasks, schedule); r.Some? ==> Inv(r.value, tasks, start)
    decreases |schedule|
  {
    hide Inv, WorkerStep, MainStep;
    if schedule != [] {
      InvState(s, tasks, start);
      var r := Turn(s, tasks, schedule[0]);
      if r.Some? {
        if schedule[0].None? {
          MainKeeps(s, tasks, start);
        } else {
          WorkerKeeps(s, tasks, start, schedule[0].value);
        }
        FollowKeeps(r.value, tasks, start, schedule[1..]);
      }
    }
  }

  lemma InvState(s: State, tasks: seq<Task>, start: i64)
    requires Inv(s, tasks, start)
    ensures s.State? && |s.handles| == |s.workers|
  {
  }

  /** At every point of every interleaving at most one thread is in the body of its `using`,
      and `lock_count` is 0 or 1: 1 whenever a thread is there. */
  lemma Exclusion(tasks: seq<Task>, start: i64, schedule: seq<Option<nat>>, t: nat, u: nat)
    requires Follow(Initial(start), tasks, schedule).Some?
    ensures var s := Follow(Initial(start), tasks, schedule).value;
      && s.State? && 0 <= s.lockCount <= 1
      && (t < |s.workers| && InBody(s.workers[t].pc) ==> s.lockCount == 1)
      && (t < u < |s.workers| ==> !(InBody(s.workers[t].pc) && InBody(s.workers[u].pc)))
  {
    StartsWell(tasks, start);
    FollowKeeps(Initial(start), tasks, start, schedule);
  }

  lemma StartsWell(tasks: seq<Task>, start: i64)
    ensures Inv(Initial(start), tasks, start)
  {
  }

  /** No update is lost: once the main thread has got every result, the counter has grown by
      all rounds of all threads, the mutex is free, every handle has been freed and the
      results are what the threads returned, in order. */
  lemma NoLostUpdates(tasks: seq<Task>, start: i64, schedule: seq<Option<nat>>)
    requires Follow(Initial(start), tasks, schedule).Some?
    requires Follow(Initial(start), tasks, schedule).value.State?
    requires Follow(Initial(start), tasks, schedule).value.main.Ended?
    ensures var s := Follow(Initial(start), tasks, schedule).value;
      && s.counter == Wrap(start + TotalTasks(tasks))
      && s.owner == None && s.lockCount == 0
      && (forall i :: 0 <= i < |s.handles| ==> s.handles[i].freed)
      && |s.results| == |tasks| && forall i :: 0 <= i < |tasks| ==> s.results[i] == tasks[i].answer
  {
    StartsWell(tasks, start);
    FollowKeeps(Initial(start), tasks, start, schedule);
    var s := Follow(Initial(start), tasks, schedule).value;
    forall i | 0 <= i < |s.workers| ensures s.workers[i].pc.Dead? && s.workers[i].left == 0 {
      assert HandleFits(s.handles[i], s.workers[i]) && WorkerFits(s.workers[i], s.counter);
    }
    TotalAtEnd(s.workers, tasks);
  }

  lemma {:induction false} TotalAtEnd(ws: seq<Worker>, tasks: seq<Task>)
    requires |ws| == |tasks|
    requires forall i :: 0 <= i < |ws| ==> ws[i].task == tasks[i] && ws[i].left == 0 && ws[i].pc.Dead?
    ensures TotalRounds(ws) == TotalTasks(tasks)
    decreases |ws|
  {
    if ws != [] {
      TotalAtEnd(ws[..|ws| - 1], tasks[..|tasks| - 1]);
    }
  }

  /** Some thread can always move until the main thread has ended: no deadlock. */
  lemma NeverStuck(tasks: seq<Task>, start: i64, schedule: seq<Option<nat>>)
    requires Follow(Initial(start), tasks, schedule).Some?
    ensures var s := Follow(Initial(start), tasks, schedule).value;
      s.State? && (s.main.Ended? || exists who :: Turn(s, tasks, who).Some?)
  {
    StartsWell(tasks, start);
    FollowKeeps(Initial(start), tasks, start, schedule);
    var s := Follow(Initial(start), tasks, schedule).value;
    if s.owner.Some? {
      assert Turn(s, tasks, s.owner).Some?;
    } else if s.main.Joining? && s.main.i < |s.workers| && !s.workers[s.main.i].pc.Dead? {
      assert Turn(s, tasks, Some(s.main.i)).Some?;
    } else if !s.main.Ended? {
      assert Turn(s, tasks, None).Some?;
    }
  }

  /** Steps a worker has left, at most. */
  function Work(w: Worker): int {
    10 * w.left +
    match w.pc
    case Ready => 3
    case Acquired => 2
    case CountLoaded(_) => 1
    case Body => 0
    case Loaded(_) => -1
    case Added(_) => -2
    case Stored => -3
    case ExitLoaded(_) => -4
    case Releasing => -5
    case Returning(_) => 2
    case Finishing => 1
    case Dead => 0
  }

  function TotalWork(ws: seq<Worker>): int {
    if ws == [] then 0 else TotalWork(ws[..|ws| - 1]) + Work(ws[|ws| - 1])
  }

  /** What starting the tasks from `i` on will add. */
  function Pending(tasks: seq<Task>, i: nat): nat
    decreases |tasks| - i
  {
    if i >= |tasks| then 0 else 10 * tasks[i].rounds + 4 + Pending(tasks, i + 1)
  }

  function MainWork(m: Main, tasks: seq<Task>): int {
    match m
    case Starting(i) => 3 * |tasks| + 2 + Pending(tasks, i)
    case Joining(i) => 3 * (|tasks| - i) + 1
    case Joined(i) => 3 * (|tasks| - i)
    case Fetched(i, _) => 3 * (|tasks| - i) - 1
    case Ended => 0
  }

  function Measure(s: State, tasks: seq<Task>): int {
    if s.Fault? then 0 else TotalWork(s.workers) + MainWork(s.main, tasks)
  }

  lemma {:induction false} WorkUpdate(ws: seq<Worker>, t: nat, w: Worker)
    requires t < |ws|
    ensures TotalWork(ws[t := w]) == TotalWork(ws) - Work(ws[t]) + Work(w)
    decreases |ws|
  {
    var n := |ws| - 1;
    if t < n {
      WorkUpdate(ws[..n], t, w);
      assert ws[t := w][..n] == ws[..n][t := w];
    } else {
      assert ws[t := w][..n] == ws[..n];
    }
  }

  lemma {:induction false} WorkPositive(ws: seq<Worker>, counter: i64)
    requires forall i :: 0 <= i < |ws| ==> WorkerFits(ws[i], counter)
    ensures TotalWork(ws) >= 0
    decreases |ws|
  {
    if ws != [] {
      WorkPositive(ws[..|ws| - 1], counter);
      assert WorkerFits(ws[|ws| - 1], counter);
    }
  }

  lemma WorkerWorks(s: State, t: nat)
    requires s.State? && t < |s.workers| && HandlesFit(s) && WorkersFit(s) && WorkerStep(s, t).Some?
    ensures var s1 := WorkerStep(s, t).value;
      s1.State? && TotalWork(s1.workers) < TotalWork(s.workers) && s1.main == s.main
  {
    hide Wrap;
    var s1 := WorkerStep(s, t).value;
    StepLocal(s, t);
    assert WorkerFits(s.workers[t], s.counter);
    hide HandlesFit, WorkersFit, TotalWork;
    WorkUpdate(s.workers, t, s1.workers[t]);
  }

  lemma MainWorks(s: State, tasks: seq<Task>)
    requires s.State? && MainFits(s, tasks) && MainStep(s, tasks).Some?
    ensures var s1 := MainStep(s, tasks).value;
      s1.State? && TotalWork(s1.workers) + MainWork(s1.main, tasks) < TotalWork(s.workers) + MainWork(s.main, tasks)
  {
    if s.main.Starting? && s.main.i < |tasks| {
      TotalWorkSnoc(s.workers, Worker(Ready, tasks[s.main.i].rounds, tasks[s.main.i]));
    } else if s.main.Joined? || s.main.Fetched? {
      assert !s.handles[s.main.i].freed;
    }
    hide TotalWork;
  }

  lemma TotalWorkSnoc(ws: seq<Worker>, w: Worker)
    ensures TotalWork(ws + [w]) == TotalWork(ws) + Work(w)
  {
    assert (ws + [w])[..|ws|] == ws;
  }

  /** Every step uses some of it up. */
  lemma TurnWorks(s: State, tasks: seq<Task>, start: i64, who: Option<nat>)
    requires Inv(s, tasks, start) && Turn(s, tasks, who).Some?
    ensures Measure(Turn(s, tasks, who).value, tasks) < Measure(s, tasks)
  {
    hide Wrap, Exclusive, TotalRounds, WorkerStep, MainStep, MainFits, HandlesFit, WorkersFit, TotalWork, MainWork;
    InvState(s, tasks, start);
    if who.Some? {
      WorkerWorks(s, who.value);
    } else {
      MainWorks(s, tasks);
    }
  }

  /** So every schedule is finite, and one that cannot be continued has ended as
      `NoLostUpdates` says. */
  lemma {:induction false} FollowEnds(s: State, tasks: seq<Task>, start: i64, schedule: seq<Option<nat>>)
    requires Inv(s, tasks, start) && Follow(s, tasks, schedule).Some?
    ensures |schedule| <= Measure(s, tasks)
    decreases |schedule|
  {
    hide Measure, WorkerStep, MainStep;
    if schedule == [] {
      MeasurePositive(s, tasks, start);
    } else {
      TurnWorks(s, tasks, start, schedule[0]);
      if schedule[0].None? {
        MainKeeps(s, tasks, start);
      } else {
        WorkerKeeps(s, tasks, start, schedule[0].value);
      }
      FollowEnds(Turn(s, tasks, schedule[0]).value, tasks, start, schedule[1..]);
    }
  }

  lemma MeasurePositive(s: State, tasks: seq<Task>, start: i64)
    requires Inv(s, tasks, start)
    ensures Measure(s, tasks) >= 0
  {
    hide Wrap, Exclusive, TotalRounds;
    WorkPositive(s.workers, s.counter);
  }

  /** The length of every interleaving is bounded by the number of threads and rounds alone. */
  lemma RunsEnd(tasks: seq<Task>, start: i64, schedule: seq<Option<nat>>)
    requires Follow(Initial(start), tasks, schedule).Some?
    ensures |schedule| <= 3 * |tasks| + 2 + Pending(tasks, 0)
  {
    StartsWell(tasks, start);
    FollowEnds(Initial(start), tasks, start, schedule);
  }
}
