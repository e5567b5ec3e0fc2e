/**
 * The thread pool as interleaved steps of its owner, its callers and its workers. A critical section, up to a wait
 * or a return, is one step; so are the unlocked test of running_ at the head of the worker loop and each task.
 */
module ThreadPool {
  import opened FiniteSets

  /** An empty task is a default-constructed function object: it can be queued but is not executed. */
  datatype Task = Empty | Job(id: nat)

  /** Where a worker is: testing running_, in take (about to lock, woken, or asleep), in a task, or gone. */
  datatype Phase = Check | Entering | Awake | Asleep | Running(task: Task) | Exited

  /** late: how many tasks the worker took from the queue since stop. */
  datatype Worker = Worker(phase: Phase, late: nat)

  datatype State = State(
    running: bool, toSpawn: nat, workers: seq<Worker>, queue: seq<Task>,
    submitted: seq<Task>, dequeued: seq<Task>, executed: seq<Task>, inlined: seq<Task>, atStop: nat)

  datatype Event =
    | Start(n: nat)
    | Spawn
    | Submit(task: Task, woken: set<nat>)
    | Stop
    | LoopTest(i: nat)
    | TakeSection(i: nat)
    | Finish(i: nat)
    | WakeSpuriously(i: nat)

  ghost function At(ws: seq<Worker>, phase: Phase): set<nat> {
    set i | 0 <= i < |ws| && ws[i].phase == phase
  }

  function Wake(ws: seq<Worker>, woken: set<nat>): (vs: seq<Worker>)
    ensures |vs| == |ws|
    ensures forall i :: 0 <= i < |ws| ==> vs[i] == if i in woken then ws[i].(phase := Awake) else ws[i]
  {
    seq(|ws|, i requires 0 <= i < |ws| => if i in woken then ws[i].(phase := Awake) else ws[i])
  }

  predicate In(ws: seq<Worker>, i: nat, phase: Phase) {
    i < |ws| && ws[i].phase == phase
  }

  ghost predicate Enabled(s: State, e: Event) {
    match e
    case Start(n) => s.workers == [] && s.toSpawn == 0
    case Spawn => s.toSpawn > 0
    case Submit(task, woken) =>
      if s.workers == [] then woken == {}
      else woken <= At(s.workers, Asleep) && (At(s.workers, Asleep) != {} ==> woken != {})
    case Stop => s.toSpawn == 0
    case LoopTest(i) => In(s.workers, i, Check)
    case TakeSection(i) => In(s.workers, i, Entering) || In(s.workers, i, Awake)
    case Finish(i) => i < |s.workers| && s.workers[i].phase.Running?
    case WakeSpuriously(i) => In(s.workers, i, Asleep)
  }

  /** Workers exist and running_ has been cleared: from here on stop is waiting in join. */
  predicate Stopped(s: State) {
    s.workers != [] && !s.running
  }

  function Move(ws: seq<Worker>, i: nat, phase: Phase): seq<Worker>
    requires i < |ws|
  {
    ws[i := ws[i].(phase := phase)]
  }

  ghost function Apply(s: State, e: Event): State
    requires Enabled(s, e)
  {
    match e
    case Start(n) => s.(running := true, toSpawn := n)
    case Spawn => s.(toSpawn := s.toSpawn - 1, workers := s.workers + [Worker(Check, 0)])
    case Submit(task, woken) =>
      if s.workers == [] then s.(inlined := s.inlined + [task])
      else s.(workers := Wake(s.workers, woken), queue := s.queue + [task], submitted := s.submitted + [task])
    case Stop =>
      s.(running := false, workers := Wake(s.workers, At(s.workers, Asleep)),
         atStop := if s.running then |s.dequeued| else s.atStop)
    case LoopTest(i) => s.(workers := Move(s.workers, i, if s.running then Entering else Exited))
    case TakeSection(i) =>
      if s.queue == [] && s.running then s.(workers := Move(s.workers, i, Asleep))
      else if s.queue == [] then s.(workers := Move(s.workers, i, Running(Empty)))
      else
        var w := s.workers[i];
        s.(workers := s.workers[i := Worker(Running(s.queue[0]), if s.running then w.late else w.late + 1)],
           queue := s.queue[1..], dequeued := s.dequeued + [s.queue[0]])
    case Finish(i) =>
      var task := s.workers[i].phase.task;
      s.(workers := Move(s.workers, i, Check), executed := if task.Job? then s.executed + [task] else s.executed)
    case WakeSpuriously(i) => s.(workers := Move(s.workers, i, Awake))
  }

  const INIT: State := State(false, 0, [], [], [], [], [], [], 0)

  /** A run: events that are not enabled have no effect, so every sequence of events is one. */
  ghost function Next(s: State, e: Event): State {
    if Enabled(s, e) then Apply(s, e) else s
  }

  ghost function After(s: State, events: seq<Event>): State {
    if events == [] then s else Next(After(s, events[..|events| - 1]), events[|events| - 1])
  }

  // ---------- sums over the workers ----------

  function Total(ws: seq<Worker>, weight: Worker -> nat): nat {
    if ws == [] then 0 else Total(ws[..|ws| - 1], weight) + weight(ws[|ws| - 1])
  }

  lemma {:induction false} TotalUpdated(ws: seq<Worker>, i: nat, w: Worker, weight: Worker -> nat)
    requires i < |ws|
    ensures Total(ws[i := w], weight) + weight(ws[i]) == Total(ws, weight) + weight(w)
  {
    var n, vs := |ws| - 1, ws[i := w];
    if i < n {
      assert vs[..n] == ws[..n][i := w];
      TotalUpdated(ws[..n], i, w, weight);
    } else {
      assert vs[..n] == ws[..n];
    }
  }

  lemma {:induction false} TotalSame(ws: seq<Worker>, vs: seq<Worker>, weight: Worker -> nat)
    requires |ws| == |vs| && forall i :: 0 <= i < |ws| ==> weight(ws[i]) == weight(vs[i])
    ensures Total(ws, weight) == Total(vs, weight)
  {
    if ws != [] {
      var n := |ws| - 1;
      forall i | 0 <= i < n
        ensures weight(ws[..n][i]) == weight(vs[..n][i])
      {
        assert weight(ws[i]) == weight(vs[i]);
      }
      TotalSame(ws[..n], vs[..n], weight);
    }
  }

  lemma {:induction false} TotalBounded(ws: seq<Worker>, weight: Worker -> nat, bound: nat)
    requires forall i :: 0 <= i < |ws| ==> weight(ws[i]) <= bound
    ensures Total(ws, weight) <= bound * |ws|
  {
    if ws != [] {
      var n := |ws| - 1;
      forall i | 0 <= i < n
        ensures weight(ws[..n][i]) <= bound
      {
        assert weight(ws[i]) <= bound;
      }
      TotalBounded(ws[..n], weight, bound);
    }
  }

  function Late(): Worker -> nat {
    (w: Worker) => w.late
  }

  function Runs(job: Task): Worker -> nat {
    (w: Worker) => if w.phase == Running(job) then 1 else 0
  }

  /** How many steps a worker of a stopped pool has left. */
  function StepsLeft(): Worker -> nat {
    (w: Worker) => if w.phase.Exited? then 0 else if w.phase.Check? then 1 else if w.phase.Running? then 2 else 3
  }

  function Occurrences(ts: seq<Task>, job: Task): nat {
    if ts == [] then 0 else Occurrences(ts[..|ts| - 1], job) + (if ts[|ts| - 1] == job then 1 else 0)
  }

  // ---------- the invariant ----------

  /** A queued task with a worker asleep has a woken worker of its own; nobody sleeps in a stopped pool. */
  ghost predicate NoLostWakeup(s: State) {
    && (s.queue != [] && At(s.workers, Asleep) != {} ==> |s.queue| <= |At(s.workers, Awake)|)
    && (Stopped(s) ==> At(s.workers, Asleep) == {})
  }

  /** First in, first out; and every job taken from the queue is either executed or in exactly one worker's hands. */
  ghost predicate Conserved(s: State) {
    && s.submitted == s.dequeued + s.queue
    && forall job: Task :: job.Job? ==> Balanced(s, job)
  }

  /** Since stop, a worker has taken at most one task, and none if it is still to run take. */
  predicate LateOnce(s: State, w: Worker) {
    && w.late <= 1
    && (!Stopped(s) || w.phase in {Entering, Awake, Asleep} ==> w.late == 0)
  }

  ghost predicate Shutdown(s: State) {
    && (s.toSpawn > 0 ==> s.running)
    && (forall w :: w in s.workers ==> LateOnce(s, w))
    && (Stopped(s) ==> |s.dequeued| == s.atStop + Total(s.workers, Late()))
  }

  ghost predicate Invariant(s: State) {
    NoLostWakeup(s) && Conserved(s) && Shutdown(s)
  }

  // ---------- how the steps move workers ----------

  lemma SetAfterUpdate(ws: seq<Worker>, i: nat, w: Worker, phase: Phase)
    requires i < |ws|
    ensures At(ws[i := w], phase) == if w.phase == phase then At(ws, phase) + {i} else At(ws, phase) - {i}
  {
  }

  lemma SetsAfterWake(ws: seq<Worker>, woken: set<nat>)
    requires woken <= At(ws, Asleep)
    ensures At(Wake(ws, woken), Asleep) == At(ws, Asleep) - woken
    ensures At(Wake(ws, woken), Awake) == At(ws, Awake) + woken
    ensures |At(Wake(ws, woken), Awake)| == |At(ws, Awake)| + |woken|
  {
    assert At(ws, Awake) !! woken;
    SizeOfUnion(At(ws, Awake), woken);
  }

  lemma NoLostWakeupKept(s: State, e: Event)
    requires NoLostWakeup(s) && Shutdown(s) && Enabled(s, e)
    ensures NoLostWakeup(Apply(s, e))
  {
    var ws := s.workers;
    match e
    case Start(n) => assert At(ws, Asleep) == {};
    case Spawn => assert At(ws + [Worker(Check, 0)], Asleep) == At(ws, Asleep);
                  assert At(ws + [Worker(Check, 0)], Awake) == At(ws, Awake);
    case Submit(task, woken) =>
      if ws != [] {
        SetsAfterWake(ws, woken);
        if At(ws, Asleep) - woken != {} {
          assert woken != {};
        }
      }
    case Stop => SetsAfterWake(ws, At(ws, Asleep));
    case TakeSection(i) => TakeKeepsWakeups(s, i);
    case LoopTest(i) => MovedAwayKeeps(s, i, if s.running then Entering else Exited);
    case Finish(i) => MovedAwayKeeps(s, i, Check);
    case WakeSpuriously(i) =>
      SetAfterUpdate(ws, i, ws[i].(phase := Awake), Asleep);
      SetAfterUpdate(ws, i, ws[i].(phase := Awake), Awake);
      SizeWith(At(ws, Awake), i);
  }

  lemma MovedAwayKeeps(s: State, i: nat, phase: Phase)
    requires NoLostWakeup(s) && i < |s.workers| && phase != Asleep && phase != Awake
    requires s.workers[i].phase != Asleep && s.workers[i].phase != Awake
    ensures NoLostWakeup(s.(workers := Move(s.workers, i, phase)))
  {
    var ws := s.workers;
    SetAfterUpdate(ws, i, ws[i].(phase := phase), Asleep);
    SetAfterUpdate(ws, i, ws[i].(phase := phase), Awake);
    assert i !in At(ws, Asleep) && i !in At(ws, Awake);
  }

  lemma TakeKeepsWakeups(s: State, i: nat)
    requires NoLostWakeup(s) && Enabled(s, TakeSection(i))
    ensures NoLostWakeup(Apply(s, TakeSection(i)))
  {
    var ws, s' := s.workers, Apply(s, TakeSection(i));
    SetAfterUpdate(ws, i, s'.workers[i], Asleep);
    SetAfterUpdate(ws, i, s'.workers[i], Awake);
    SizeWithout(At(ws, Awake), i);
  }

  lemma OccurrencesAppend(ts: seq<Task>, task: Task, job: Task)
    ensures Occurrences(ts + [task], job) == Occurrences(ts, job) + (if task == job then 1 else 0)
  {
    assert (ts + [task])[..|ts|] == ts;
  }

  ghost predicate Balanced(s: State, job: Task) {
    Occurrences(s.dequeued, job) == Occurrences(s.executed, job) + Total(s.workers, Runs(job))
  }

  lemma TakeBalanced(s: State, i: nat, job: Task)
    requires Enabled(s, TakeSection(i)) && job.Job? && Balanced(s, job)
    ensures Balanced(Apply(s, TakeSection(i)), job)
  {
    TotalUpdated(s.workers, i, Apply(s, TakeSection(i)).workers[i], Runs(job));
    if s.queue != [] {
      OccurrencesAppend(s.dequeued, s.queue[0], job);
    }
  }

  lemma FinishBalanced(s: State, i: nat, job: Task)
    requires Enabled(s, Finish(i)) && job.Job? && Balanced(s, job)
    ensures Balanced(Apply(s, Finish(i)), job)
  {
    TotalUpdated(s.workers, i, Apply(s, Finish(i)).workers[i], Runs(job));
    OccurrencesAppend(s.executed, s.workers[i].phase.task, job);
  }

  lemma RunsMoved(ws: seq<Worker>, i: nat, phase: Phase, job: Task)
    requires i < |ws| && !ws[i].phase.Running? && !phase.Running?
    ensures Total(Move(ws, i, phase), Runs(job)) == Total(ws, Runs(job))
  {
    TotalUpdated(ws, i, ws[i].(phase := phase), Runs(job));
  }

  lemma RunsSpawned(ws: seq<Worker>, job: Task)
    ensures Total(ws + [Worker(Check, 0)], Runs(job)) == Total(ws, Runs(job))
  {
    assert (ws + [Worker(Check, 0)])[..|ws|] == ws;
  }

  lemma RunsWoken(ws: seq<Worker>, woken: set<nat>, job: Task)
    requires woken <= At(ws, Asleep)
    ensures Total(Wake(ws, woken), Runs(job)) == Total(ws, Runs(job))
  {
    TotalSame(ws, Wake(ws, woken), Runs(job));
  }

  /** The balance of one job over one event. */
  lemma JobBalanced(s: State, e: Event, job: Task)
    requires Enabled(s, e) && job.Job? && Balanced(s, job)
    ensures Balanced(Apply(s, e), job)
  {
    hide Occurrences, Total, Runs;
    var ws, s' := s.workers, Apply(s, e);
    match e
    case Start(n) =>
    case Spawn => RunsSpawned(ws, job);
    case Submit(task, woken) => if ws != [] { RunsWoken(ws, woken, job); }
    case Stop => RunsWoken(ws, At(ws, Asleep), job);
    case LoopTest(i) => RunsMoved(ws, i, if s.running then Entering else Exited, job);
    case WakeSpuriously(i) => RunsMoved(ws, i, Awake, job);
    case TakeSection(i) => TakeBalanced(s, i, job);
    case Finish(i) => FinishBalanced(s, i, job);
  }

  lemma ConservedKept(s: State, e: Event)
    requires Conserved(s) && Enabled(s, e)
    ensures Conserved(Apply(s, e))
  {
    forall job: Task | job.Job?
      ensures Balanced(Apply(s, e), job)
    {
      JobBalanced(s, e, job);
    }
    if e.TakeSection? && s.queue != [] {
      assert s.queue == [s.queue[0]] + s.queue[1..];
    }
  }

  lemma LateOnceKept(s: State, e: Event)
    requires Shutdown(s) && Enabled(s, e)
    ensures forall w :: w in Apply(s, e).workers ==> LateOnce(Apply(s, e), w)
  {
    var s' := Apply(s, e);
    forall j | 0 <= j < |s'.workers|
      ensures LateOnce(s', s'.workers[j])
    {
      if j < |s.workers| {
        assert LateOnce(s, s.workers[j]);
      }
    }
  }

  lemma LateMoved(ws: seq<Worker>, i: nat, phase: Phase)
    requires i < |ws|
    ensures Total(Move(ws, i, phase), Late()) == Total(ws, Late())
  {
    TotalUpdated(ws, i, ws[i].(phase := phase), Late());
  }

  lemma LateWoken(ws: seq<Worker>, woken: set<nat>)
    ensures Total(Wake(ws, woken), Late()) == Total(ws, Late())
  {
    TotalSame(ws, Wake(ws, woken), Late());
  }

  lemma NoneLateYet(s: State)
    requires Shutdown(s) && s.running
    ensures Total(s.workers, Late()) == 0
  {
    forall i | 0 <= i < |s.workers|
      ensures Late()(s.workers[i]) <= 0
    {
      assert LateOnce(s, s.workers[i]);
    }
    TotalBounded(s.workers, Late(), 0);
  }

  lemma LateTaken(s: State, i: nat)
    requires NoLostWakeup(s) && Shutdown(s) && Enabled(s, TakeSection(i)) && Stopped(s)
    ensures var s' := Apply(s, TakeSection(i)); |s'.dequeued| == s'.atStop + Total(s'.workers, Late())
  {
    TotalUpdated(s.workers, i, Apply(s, TakeSection(i)).workers[i], Late());
  }

  lemma LateTotalKept(s: State, e: Event)
    requires NoLostWakeup(s) && Shutdown(s) && Enabled(s, e)
    ensures var s' := Apply(s, e); Stopped(s') ==> |s'.dequeued| == s'.atStop + Total(s'.workers, Late())
  {
    hide Total, Late, LateOnce, At;
    var ws := s.workers;
    match e
    case Start(n) =>
    case Spawn =>
    case Submit(task, woken) => LateWoken(ws, woken);
    case Stop =>
      LateWoken(ws, At(ws, Asleep));
      if s.running {
        NoneLateYet(s);
      }
    case LoopTest(i) => LateMoved(ws, i, if s.running then Entering else Exited);
    case WakeSpuriously(i) => LateMoved(ws, i, Awake);
    case Finish(i) => LateMoved(ws, i, Check);
    case TakeSection(i) =>
      if Stopped(s) {
        LateTaken(s, i);
      }
  }

  lemma EventKeeps(s: State, e: Event)
    requires Invariant(s) && Enabled(s, e)
    ensures Invariant(Apply(s, e))
  {
    NoLostWakeupKept(s, e);
    ConservedKept(s, e);
    LateOnceKept(s, e);
    LateTotalKept(s, e);
  }

  /** The invariant holds after every run. */
  lemma {:induction false} RunsAreSafe(events: seq<Event>)
    ensures Invariant(After(INIT, events))
  {
    if events == [] {
      forall job: Task | job.Job?
        ensures Balanced(INIT, job)
      {
      }
    } else {
      var n := |events| - 1;
      RunsAreSafe(events[..n]);
      var s := After(INIT, events[..n]);
      if Enabled(s, events[n]) {
        EventKeeps(s, events[n]);
      }
    }
  }

  // ---------- what the invariant gives ----------

  lemma {:induction false} OccurrencesConcat(a: seq<Task>, b: seq<Task>, job: Task)
    ensures Occurrences(a + b, job) == Occurrences(a, job) + Occurrences(b, job)
  {
    if b == [] {
      assert a + b == a;
    } else {
      var n := |b| - 1;
      assert (a + b)[..|a| + n] == a + b[..n];
      OccurrencesConcat(a, b[..n], job);
    }
  }

  // ---------- what callers submitted, read off the events alone ----------

  /** How many threads start has still to create, and how many it has created. */
  datatype Staffing = Staffing(toSpawn: nat, threads: nat)

  function StaffAfter(t: Staffing, e: Event): Staffing {
    match e
    case Start(n) => if t == Staffing(0, 0) then Staffing(n, 0) else t
    case Spawn => if t.toSpawn > 0 then Staffing(t.toSpawn - 1, t.threads + 1) else t
    case _ => t
  }

  function Staff(events: seq<Event>): Staffing {
    if events == [] then Staffing(0, 0) else StaffAfter(Staff(events[..|events| - 1]), events[|events| - 1])
  }

  /** The task of an effective call of run, if the pool has threads just when threaded says so. */
  ghost function GivenBy(s: State, e: Event, threads: nat, threaded: bool): seq<Task> {
    if e.Submit? && Enabled(s, e) && (threads > 0) == threaded then [e.task] else []
  }

  /** The tasks given to run while there were threads, and those given to it when there were none. */
  ghost function Given(events: seq<Event>, threaded: bool): seq<Task> {
    if events == [] then []
    else
      var n := |events| - 1;
      Given(events[..n], threaded) + GivenBy(After(INIT, events[..n]), events[n], Staff(events[..n]).threads, threaded)
  }

  lemma StaffStep(s: State, e: Event)
    ensures var s' := Next(s, e);
      Staffing(s'.toSpawn, |s'.workers|) == StaffAfter(Staffing(s.toSpawn, |s.workers|), e)
  {
  }

  lemma {:induction false} StaffIs(events: seq<Event>)
    ensures var s := After(INIT, events); Staff(events) == Staffing(s.toSpawn, |s.workers|)
  {
    hide Next, StaffAfter;
    if events != [] {
      var n := |events| - 1;
      StaffIs(events[..n]);
      StaffStep(After(INIT, events[..n]), events[n]);
    }
  }

  lemma GivenStep(s: State, e: Event)
    ensures var s' := Next(s, e);
      && s'.submitted == s.submitted + GivenBy(s, e, |s.workers|, true)
      && s'.inlined == s.inlined + GivenBy(s, e, |s.workers|, false)
  {
  }

  /** Main result: what goes into the queue is what is given to a pool with threads; all else is run by the caller. */
  lemma {:induction false} GivenIs(events: seq<Event>)
    ensures var s := After(INIT, events);
      s.submitted == Given(events, true) && s.inlined == Given(events, false)
  {
    hide Next, GivenBy, Staff;
    if events != [] {
      var n := |events| - 1;
      GivenIs(events[..n]);
      StaffIs(events[..n]);
      GivenStep(After(INIT, events[..n]), events[n]);
    }
  }

  /**
   * Main result: the tasks given to a pool with threads leave the queue in the order they came; each of these jobs is
   * executed, in one worker's hands or still queued, exactly as often as it was given.
   */
  lemma TasksConserved(events: seq<Event>, job: Task)
    requires job.Job?
    ensures var s := After(INIT, events);
      && Given(events, true) == s.dequeued + s.queue
      && Occurrences(Given(events, true), job)
           == Occurrences(s.executed, job) + Total(s.workers, Runs(job)) + Occurrences(s.queue, job)
  {
    RunsAreSafe(events);
    GivenIs(events);
    var s := After(INIT, events);
    assert Balanced(s, job);
    OccurrencesConcat(s.dequeued, s.queue, job);
  }

  /** Empty tasks are never executed. */
  lemma {:induction false} ExecutedJobs(events: seq<Event>)
    ensures Empty !in After(INIT, events).executed
  {
    if events != [] {
      ExecutedJobs(events[..|events| - 1]);
    }
  }

  /** Main result: a worker sleeps only while every queued task has a woken worker to itself. */
  lemma NoTaskWaitsForSleeper(events: seq<Event>)
    ensures var s := After(INIT, events);
      s.queue != [] && At(s.workers, Asleep) != {} ==> |s.queue| <= |At(s.workers, Awake)|
  {
    RunsAreSafe(events);
  }

  predicate AllExited(s: State) {
    forall w :: w in s.workers ==> w.phase == Exited
  }

  predicate WorkerEvent(e: Event) {
    e.LoopTest? || e.TakeSection? || e.Finish? || e.WakeSpuriously?
  }

  /** Main result: after stop nobody sleeps, and every worker takes at most one more task. */
  lemma LateTakesBounded(events: seq<Event>)
    requires Stopped(After(INIT, events))
    ensures var s := After(INIT, events);
      && At(s.workers, Asleep) == {}
      && (forall w :: w in s.workers ==> w.late <= 1)
      && s.atStop <= |s.dequeued| <= s.atStop + |s.workers|
  {
    RunsAreSafe(events);
    var s := After(INIT, events);
    forall w | w in s.workers
      ensures w.late <= 1
    {
      assert LateOnce(s, w);
    }
    TotalBounded(s.workers, Late(), 1);
  }

  /** One event of a stopped pool: it stays stopped, and a worker's step uses up one of those left. */
  lemma StoppedStep(s: State, e: Event)
    requires Invariant(s) && Stopped(s) && Enabled(s, e)
    ensures var s' := Apply(s, e);
      && Stopped(s') && |s'.workers| == |s.workers|
      && Total(s'.workers, StepsLeft()) + (if WorkerEvent(e) then 1 else 0) <= Total(s.workers, StepsLeft())
  {
    var ws, s' := s.workers, Apply(s, e);
    match e
    case Start(n) => assert false;
    case Spawn => assert false;
    case Submit(task, woken) => TotalSame(ws, s'.workers, StepsLeft());
    case Stop => TotalSame(ws, s'.workers, StepsLeft());
    case LoopTest(i) => TotalUpdated(ws, i, s'.workers[i], StepsLeft());
    case TakeSection(i) => TotalUpdated(ws, i, s'.workers[i], StepsLeft());
    case Finish(i) => TotalUpdated(ws, i, s'.workers[i], StepsLeft());
    case WakeSpuriously(i) => assert i in At(ws, Asleep);
  }

  /** How many steps workers take in a run. */
  ghost function WorkerSteps(s: State, events: seq<Event>): nat {
    if events == [] then 0
    else
      var n := |events| - 1;
      WorkerSteps(s, events[..n])
        + (if Enabled(After(s, events[..n]), events[n]) && WorkerEvent(events[n]) then 1 else 0)
  }

  lemma {:induction false} StepsUsedUp(s: State, events: seq<Event>)
    requires Invariant(s) && Stopped(s)
    ensures var t := After(s, events);
      && Invariant(t) && Stopped(t) && |t.workers| == |s.workers|
      && Total(t.workers, StepsLeft()) + WorkerSteps(s, events) <= Total(s.workers, StepsLeft())
  {
    hide Invariant, Enabled, Apply, Stopped;
    if events != [] {
      var n := |events| - 1;
      StepsUsedUp(s, events[..n]);
      var t := After(s, events[..n]);
      if Enabled(t, events[n]) {
        EventKeeps(t, events[n]);
        StoppedStep(t, events[n]);
      }
    }
  }

  lemma {:induction false} NoStepsLeft(ws: seq<Worker>)
    requires Total(ws, StepsLeft()) == 0
    ensures forall w :: w in ws ==> w.phase == Exited
  {
    if ws != [] {
      NoStepsLeft(ws[..|ws| - 1]);
      assert ws == ws[..|ws| - 1] + [ws[|ws| - 1]];
    }
  }

  /**
   * Main result: after stop has cleared running_, whatever else happens, three steps per worker are enough for all
   * workers to exit, so that the joins complete.
   */
  lemma ShutdownCompletes(before: seq<Event>, events: seq<Event>)
    requires Stopped(After(INIT, before))
    requires WorkerSteps(After(INIT, before), events) >= 3 * |After(INIT, before).workers|
    ensures AllExited(After(After(INIT, before), events))
  {
    RunsAreSafe(before);
    var s := After(INIT, before);
    StepsUsedUp(s, events);
    TotalBounded(s.workers, StepsLeft(), 3);
    NoStepsLeft(After(s, events).workers);
  }

  /** A worker of a stopped pool that has not exited can step. */
  lemma WorkerCanStep(s: State, i: nat) returns (e: Event)
    requires NoLostWakeup(s) && Stopped(s) && i < |s.workers| && s.workers[i].phase != Exited
    ensures WorkerEvent(e) && Enabled(s, e)
  {
    assert s.workers[i].phase == Asleep ==> i in At(s.workers, Asleep);
    e := match s.workers[i].phase
      case Check => LoopTest(i)
      case Running(_) => Finish(i)
      case _ => TakeSection(i);
  }

  lemma ExitedCannotStep(s: State, e: Event)
    requires AllExited(s) && WorkerEvent(e)
    ensures !Enabled(s, e)
  {
  }

  /** Main result: in a stopped pool some worker can step until all have exited; nobody is left waiting. */
  lemma ShutdownNeverStuck(before: seq<Event>)
    requires Stopped(After(INIT, before))
    ensures var s := After(INIT, before);
      AllExited(s) <==> forall e :: WorkerEvent(e) ==> !Enabled(s, e)
  {
    hide Enabled, After, WorkerEvent;
    RunsAreSafe(before);
    var s := After(INIT, before);
    if AllExited(s) {
      forall e | WorkerEvent(e)
        ensures !Enabled(s, e)
      {
        ExitedCannotStep(s, e);
      }
    } else {
      var i :| 0 <= i < |s.workers| && s.workers[i].phase != Exited;
      var e := WorkerCanStep(s, i);
    }
  }

  // ---------- which tasks stop leaves behind ----------

  /** Whether a worker is inside take, past the test of running_ and before the queue. */
  function InTake(): Worker -> nat {
    (w: Worker) => if w.phase.Entering? || w.phase.Awake? || w.phase.Asleep? then 1 else 0
  }

  /** How many of the first due tasks nobody will take any more: those still queued without a worker in take. */
  function Abandoned(s: State, due: nat): nat {
    Excess(due, |s.dequeued| + Total(s.workers, InTake()))
  }

  function Excess(a: nat, b: nat): nat {
    if a <= b then 0 else a - b
  }

  lemma AbandonedByTake(s: State, i: nat, due: nat)
    requires Stopped(s) && Enabled(s, TakeSection(i)) && due <= |s.dequeued| + |s.queue|
    ensures Abandoned(Apply(s, TakeSection(i)), due) == Abandoned(s, due)
  {
    hide Total;
    TotalUpdated(s.workers, i, Apply(s, TakeSection(i)).workers[i], InTake());
  }

  lemma AbandonedMoved(s: State, i: nat, phase: Phase, due: nat)
    requires i < |s.workers| && InTake()(s.workers[i]) == InTake()(s.workers[i].(phase := phase))
    ensures Abandoned(s.(workers := Move(s.workers, i, phase)), due) == Abandoned(s, due)
  {
    TotalUpdated(s.workers, i, s.workers[i].(phase := phase), InTake());
  }

  /** No event of a stopped pool changes how many of the first due tasks are abandoned. */
  lemma AbandonedKept(s: State, e: Event, due: nat)
    requires Stopped(s) && s.toSpawn == 0 && Enabled(s, e) && due <= |s.dequeued| + |s.queue|
    ensures var s' := Apply(s, e);
      Abandoned(s', due) == Abandoned(s, due) && due <= |s'.dequeued| + |s'.queue|
  {
    hide Total;
    var ws, s' := s.workers, Apply(s, e);
    match e
    case Submit(task, woken) => TotalSame(ws, s'.workers, InTake());
    case Stop => TotalSame(ws, s'.workers, InTake());
    case LoopTest(i) => AbandonedMoved(s, i, Exited, due);
    case TakeSection(i) => AbandonedByTake(s, i, due);
    case Finish(i) => AbandonedMoved(s, i, Check, due);
    case WakeSpuriously(i) => AbandonedMoved(s, i, Awake, due);
  }

  lemma {:induction false} AbandonedInRun(s: State, events: seq<Event>, due: nat)
    requires Invariant(s) && Stopped(s) && due <= |s.submitted|
    ensures Abandoned(After(s, events), due) == Abandoned(s, due) && s.submitted <= After(s, events).submitted
  {
    hide Enabled, Apply, Total, NoLostWakeup, Balanced, LateOnce;
    if events != [] {
      var n := |events| - 1;
      AbandonedInRun(s, events[..n], due);
      StepsUsedUp(s, events[..n]);
      var t := After(s, events[..n]);
      if Enabled(t, events[n]) {
        AbandonedKept(t, events[n], due);
        SubmittedGrows(t, events[n]);
      }
    }
  }

  lemma SubmittedGrows(s: State, e: Event)
    requires Enabled(s, e)
    ensures s.submitted <= Apply(s, e).submitted
  {
  }

  lemma NobodyInTake(s: State)
    requires AllExited(s)
    ensures Total(s.workers, InTake()) == 0
  {
    TotalBounded(s.workers, InTake(), 0);
  }

  /**
   * Main result: what becomes of the tasks queued at some moment of a stopped pool. By the time all workers have
   * exited, every one of them has been taken if and only if there were no more of them than workers inside take;
   * otherwise exactly one for each of these workers was taken, and the later ones are left behind in their order,
   * whatever else happened.
   */
  lemma AbandonedExactly(before: seq<Event>, events: seq<Event>)
    requires Stopped(After(INIT, before)) && AllExited(After(After(INIT, before), events))
    ensures var s, t := After(INIT, before), After(After(INIT, before), events);
      var takers := Total(s.workers, InTake());
      && (s.dequeued + s.queue <= t.dequeued <==> |s.queue| <= takers)
      && (takers < |s.queue| ==> t.dequeued == s.dequeued + s.queue[..takers] && s.queue[takers..] <= t.queue)
  {
    hide Total, NoLostWakeup, Balanced, LateOnce;
    RunsAreSafe(before);
    var s, t := After(INIT, before), After(After(INIT, before), events);
    StepsUsedUp(s, events);
    AbandonedInRun(s, events, |s.submitted|);
    NobodyInTake(t);
    TakenInOrder(s.dequeued, s.queue, t.dequeued, t.queue, Total(s.workers, InTake()));
  }

  /** Both halves of a first-in-first-out record, compared with a later one by lengths alone. */
  lemma TakenInOrder(taken: seq<Task>, queue: seq<Task>, taken': seq<Task>, queue': seq<Task>, takers: nat)
    requires taken + queue <= taken' + queue'
    requires Excess(|taken + queue|, |taken'|) == Excess(|taken + queue|, |taken| + takers)
    ensures taken + queue <= taken' <==> |queue| <= takers
    ensures takers < |queue| ==> taken' == taken + queue[..takers] && queue[takers..] <= queue'
  {
    var all, all' := taken + queue, taken' + queue';
    if takers < |queue| {
      var n := |taken| + takers;
      assert taken' == all'[..n] == all[..n] == taken + queue[..takers];
      assert queue' == all'[n..] && queue[takers..] == all[n..];
    } else {
      assert taken' == all'[..|taken'|];
    }
  }

  lemma AfterAppend(s: State, events: seq<Event>, e: Event)
    ensures After(s, events + [e]) == Next(After(s, events), e)
  {
    assert (events + [e])[..|events|] == events;
  }

  lemma AfterNothing(s: State)
    ensures After(s, []) == s
  {
  }

  lemma StartOneWorker() returns (events: seq<Event>)
    ensures After(INIT, events) == State(true, 0, [Worker(Check, 0)], [], [], [], [], [], 0)
  {
    hide After;
    AfterNothing(INIT);
    AfterAppend(INIT, [], Start(1));
    assert Next(INIT, Start(1)) == State(true, 1, [], [], [], [], [], [], 0);
    events := [] + [Start(1)];
    AfterAppend(INIT, events, Spawn);
    events := events + [Spawn];
  }

  /** A task is queued while the only worker has yet to test running_. */
  lemma QueueOneTask() returns (events: seq<Event>)
    ensures After(INIT, events) == State(true, 0, [Worker(Check, 0)], [Job(7)], [Job(7)], [], [], [], 0)
  {
    events := StartOneWorker();
    hide After;
    var s := After(INIT, events);
    AfterAppend(INIT, events, Submit(Job(7), {}));
    assert At(s.workers, Asleep) == {};
    assert Wake(s.workers, {}) == s.workers;
    events := events + [Submit(Job(7), {})];
  }

  /** Stop does not drain the queue: a task submitted before it can be left behind by workers that have all exited. */
  lemma StopAbandonsTasks() returns (events: seq<Event>)
    ensures var s := After(INIT, events); Stopped(s) && AllExited(s) && s.queue != []
  {
    events := QueueOneTask();
    hide After;
    var s3 := After(INIT, events);
    var s4 := s3.(running := false);
    AfterAppend(INIT, events, Stop);
    assert Apply(s3, Stop) == s4;
    events := events + [Stop];
    AfterAppend(INIT, events, LoopTest(0));
    assert Apply(s4, LoopTest(0)).workers == [Worker(Exited, 0)];
    events := events + [LoopTest(0)];
  }

  // ---------- the code ----------

  class Pool {
    var running: bool
    var toSpawn: nat
    var workers: seq<Worker>
    var queue: seq<Task>
    ghost var submitted: seq<Task>
    ghost var dequeued: seq<Task>
    ghost var executed: seq<Task>
    ghost var inlined: seq<Task>
    ghost var atStop: nat

    ghost function Value(): State
      reads this
    {
      State(running, toSpawn, workers, queue, submitted, dequeued, executed, inlined, atStop)
    }

    constructor ()
      ensures Value() == INIT
    {
      running, toSpawn, workers, queue := false, 0, [], [];
      submitted, dequeued, executed, inlined, atStop := [], [], [], [], 0;
    }

    /** start: set running_, then create the threads one by one (SpawnOne). */
    method Begin(numThreads: nat)
      requires Enabled(Value(), Start(numThreads))
      modifies this
      ensures Value() == Apply(old(Value()), Start(numThreads))
    {
      running, toSpawn := true, numThreads;
    }

    method SpawnOne()
      requires Enabled(Value(), Spawn)
      modifies this
      ensures Value() == Apply(old(Value()), Spawn)
    {
      workers, toSpawn := workers + [Worker(Check, 0)], toSpawn - 1;
    }

    /** run: without threads the caller executes the task itself. */
    method Run(task: Task, woken: set<nat>) returns (inline: bool)
      requires Enabled(Value(), Submit(task, woken))
      modifies this
      ensures Value() == Apply(old(Value()), Submit(task, woken))
      ensures inline <==> old(workers) == []
      ensures queue == if inline then old(queue) else old(queue) + [task]
      ensures inlined == if inline then old(inlined) + [task] else old(inlined)
    {
      if workers == [] {
        inlined := inlined + [task];
        return true;
      }
      queue := queue + [task];
      submitted := submitted + [task];
      workers := Wake(workers, woken);
      return false;
    }

    /** The critical section of stop: clear running_ and notify every sleeper. */
    method Halt()
      requires Enabled(Value(), Stop)
      modifies this
      ensures Value() == Apply(old(Value()), Stop)
    {
      if running {
        atStop := |dequeued|;
      }
      running := false;
      var woken := set i | 0 <= i < |workers| && workers[i].phase == Asleep;
      assert woken == At(workers, Asleep);
      workers := Wake(workers, woken);
    }

    /** The head of the worker loop reads running_ without the lock. */
    method TestLoop(i: nat) returns (again: bool)
      requires Enabled(Value(), LoopTest(i))
      modifies this
      ensures Value() == Apply(old(Value()), LoopTest(i))
      ensures again <==> old(running)
    {
      again := running;
      workers := Move(workers, i, if running then Entering else Exited);
    }

    /** One critical section of take: wait while there is nothing to do, else return the front or an empty task. */
    method Take(i: nat) returns (waits: bool, task: Task)
      requires Enabled(Value(), TakeSection(i))
      modifies this
      ensures Value() == Apply(old(Value()), TakeSection(i))
      ensures waits <==> old(queue) == [] && old(running)
      ensures task == if old(queue) == [] then Empty else old(queue)[0]
      ensures queue == if old(queue) == [] then [] else old(queue)[1..]
    {
      if queue == [] && running {
        workers := Move(workers, i, Asleep);
        return true, Empty;
      }
      task := Empty;
      if queue != [] {
        task := queue[0];
        queue := queue[1..];
        dequeued := dequeued + [task];
        workers := workers[i := Worker(Running(task), if running then workers[i].late else workers[i].late + 1)];
      } else {
        workers := Move(workers, i, Running(Empty));
      }
      waits := false;
    }

    /** The body of the worker loop after take: an empty task is skipped. */
    method FinishTask(i: nat) returns (ran: bool)
      requires Enabled(Value(), Finish(i))
      modifies this
      ensures Value() == Apply(old(Value()), Finish(i))
      ensures ran <==> old(workers)[i].phase.task.Job?
      ensures executed == if ran then old(executed) + [old(workers)[i].phase.task] else old(executed)
    {
      var task := workers[i].phase.task;
      ran := task.Job?;
      if ran {
        executed := executed + [task];
      }
      workers := Move(workers, i, Check);
    }
  }
}
