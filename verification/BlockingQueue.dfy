/**
 * The bounded blocking queue as interleaved critical sections. Each section runs from taking the mutex, on entry
 * or after a wakeup, up to a wait or the return. notify wakes at least one waiter when there is one; a waiter may
 * also wake for no reason.
 */
module BlockingQueue {
  import opened Arithmetic
  import opened FiniteSets

  type Thread = nat

  datatype Op<T> = Put(x: T) | Take

  /** Entering: not yet in the mutex. Awake: returned from a wait, not yet in the mutex again. */
  datatype Where = Entering | Awake | Asleep

  datatype Phase<T> = Idle | Inside(op: Op<T>, where: Where)

  /** The queue and its threads; puts and takes record what was stored and handed out so far. */
  datatype State<T> = State(capacity: nat, queue: seq<T>, phases: map<Thread, Phase<T>>,
                            puts: seq<T>, takes: seq<T>, called: seq<Op<T>>)

  datatype Event<T> =
    | Call(t: Thread, op: Op<T>)
    | Lock(t: Thread, woken: set<Thread>)
    | WakeSpuriously(t: Thread)

  /** The threads inside put (takers false) or take (takers true) at a given place. */
  ghost function At<T>(s: State<T>, takers: bool, where: Where): set<Thread> {
    set t | t in s.phases && s.phases[t].Inside? && s.phases[t].where == where && s.phases[t].op.Take? == takers
  }

  ghost function Pending<T>(s: State<T>, takers: bool): set<Thread> {
    set t | t in s.phases && s.phases[t].Inside? && s.phases[t].op.Take? == takers
  }

  function Wake<T>(phases: map<Thread, Phase<T>>, woken: set<Thread>): map<Thread, Phase<T>>
    requires forall t :: t in woken ==> t in phases && phases[t].Inside?
  {
    map t | t in phases :: if t in woken then Inside(phases[t].op, Awake) else phases[t]
  }

  /** Whether the operation of a thread that holds the mutex must wait: the loop conditions of put and take. */
  predicate MustWait<T>(s: State<T>, op: Op<T>) {
    if op.Put? then |s.queue| == s.capacity else s.queue == []
  }

  ghost predicate Runnable<T>(s: State<T>, t: Thread) {
    t in s.phases && s.phases[t].Inside? && s.phases[t].where != Asleep
  }

  ghost predicate Enabled<T>(s: State<T>, e: Event<T>) {
    match e
    case Call(t, op) => t in s.phases && s.phases[t].Idle?
    case Lock(t, woken) =>
      && Runnable(s, t)
      && var op := s.phases[t].op;
         if MustWait(s, op) then woken == {}
         else var sleepers := At(s, op.Put?, Asleep); woken <= sleepers && (sleepers != {} ==> woken != {})
    case WakeSpuriously(t) => t in s.phases && s.phases[t].Inside? && s.phases[t].where == Asleep
  }

  ghost function Apply<T>(s: State<T>, e: Event<T>): State<T>
    requires Enabled(s, e)
  {
    match e
    case Call(t, op) => s.(phases := s.phases[t := Inside(op, Entering)], called := s.called + [op])
    case WakeSpuriously(t) => s.(phases := Wake(s.phases, {t}))
    case Lock(t, woken) =>
      var op := s.phases[t].op;
      if MustWait(s, op) then s.(phases := s.phases[t := Inside(op, Asleep)])
      else
        var phases := Wake(s.phases, woken)[t := Idle];
        match op
        case Put(x) => s.(phases := phases, queue := s.queue + [x], puts := s.puts + [x])
        case Take => s.(phases := phases, queue := s.queue[1..], takes := s.takes + [s.queue[0]])
  }

  function Init<T>(capacity: nat, threads: set<Thread>): State<T> {
    State(capacity, [], map t | t in threads :: Idle, [], [], [])
  }

  /** A run: events that are not enabled have no effect, so every sequence of events is one. */
  ghost function After<T>(s: State<T>, events: seq<Event<T>>): State<T> {
    if events == [] then s
    else
      var n := |events| - 1;
      var t := After(s, events[..n]);
      if Enabled(t, events[n]) then Apply(t, events[n]) else t
  }

  // ---------- the invariant ----------

  /** If a taker sleeps, every stored element has a woken taker of its own; likewise putters and free slots. */
  ghost predicate NoLostWakeup<T>(s: State<T>) {
    && (At(s, true, Asleep) != {} ==> |s.queue| <= |At(s, true, Awake)|)
    && (At(s, false, Asleep) != {} ==> s.capacity - |s.queue| <= |At(s, false, Awake)|)
  }

  function CountOps<T>(ops: seq<Op<T>>, takers: bool): nat {
    if ops == [] then 0 else CountOps(ops[..|ops| - 1], takers) + (if ops[|ops| - 1].Take? == takers then 1 else 0)
  }

  ghost predicate Invariant<T>(s: State<T>) {
    && |s.queue| <= s.capacity
    && s.puts == s.takes + s.queue
    && CountOps(s.called, false) == |s.puts| + |Pending(s, false)|
    && CountOps(s.called, true) == |s.takes| + |Pending(s, true)|
    && NoLostWakeup(s)
  }

  lemma InitInvariant<T>(capacity: nat, threads: set<Thread>)
    ensures Invariant(Init<T>(capacity, threads))
  {
    var s := Init<T>(capacity, threads);
    assert Pending(s, false) == {} && Pending(s, true) == {};
    assert At(s, false, Asleep) == {} && At(s, true, Asleep) == {};
  }

  lemma CallSets<T>(s: State<T>, t: Thread, op: Op<T>, takers: bool)
    requires Enabled(s, Call(t, op))
    ensures var s' := Apply(s, Call(t, op));
      && At(s', takers, Asleep) == At(s, takers, Asleep)
      && At(s', takers, Awake) == At(s, takers, Awake)
      && t !in Pending(s, takers)
      && Pending(s', takers) == if takers == op.Take? then Pending(s, takers) + {t} else Pending(s, takers)
  {
  }

  lemma CallKeeps<T>(s: State<T>, t: Thread, op: Op<T>)
    requires Invariant(s) && Enabled(s, Call(t, op))
    ensures Invariant(Apply(s, Call(t, op)))
  {
    hide At, Pending;
    assert Apply(s, Call(t, op)).called[..|s.called|] == s.called;
    CallSets(s, t, op, true);
    CallSets(s, t, op, false);
  }

  lemma SpuriousKeeps<T>(s: State<T>, t: Thread)
    requires Invariant(s) && Enabled(s, WakeSpuriously(t))
    ensures Invariant(Apply(s, WakeSpuriously(t)))
  {
    var s' := Apply(s, WakeSpuriously(t));
    forall takers: bool
      ensures Pending(s', takers) == Pending(s, takers)
      ensures At(s', takers, Asleep) <= At(s, takers, Asleep)
      ensures |At(s', takers, Awake)| >= |At(s, takers, Awake)|
    {
      assert At(s, takers, Awake) <= At(s', takers, Awake);
      SizeOfSubset(At(s, takers, Awake), At(s', takers, Awake));
    }
  }

  lemma WaitKeeps<T>(s: State<T>, t: Thread)
    requires Invariant(s) && Enabled(s, Lock(t, {})) && MustWait(s, s.phases[t].op)
    ensures Invariant(Apply(s, Lock(t, {})))
  {
    var s', me := Apply(s, Lock(t, {})), s.phases[t].op.Take?;
    assert Pending(s', true) == Pending(s, true) && Pending(s', false) == Pending(s, false);
    assert At(s', !me, Asleep) == At(s, !me, Asleep) && At(s', !me, Awake) == At(s, !me, Awake);
  }

  /** The section that completes: it leaves its own side, and wakes at least one sleeper of the other. */
  lemma PassSets<T>(s: State<T>, t: Thread, woken: set<Thread>)
    requires Enabled(s, Lock(t, woken)) && !MustWait(s, s.phases[t].op)
    ensures var s', me := Apply(s, Lock(t, woken)), s.phases[t].op.Take?;
      && t in Pending(s, me) && Pending(s', me) == Pending(s, me) - {t} && Pending(s', !me) == Pending(s, !me)
      && At(s', me, Asleep) == At(s, me, Asleep) && At(s', me, Awake) == At(s, me, Awake) - {t}
      && At(s', !me, Asleep) == At(s, !me, Asleep) - woken && At(s', !me, Awake) == At(s, !me, Awake) + woken
      && At(s, !me, Awake) !! woken
  {
  }

  lemma PassQueue<T>(s: State<T>, t: Thread, woken: set<Thread>)
    requires Invariant(s) && Enabled(s, Lock(t, woken)) && !MustWait(s, s.phases[t].op)
    ensures var s', op := Apply(s, Lock(t, woken)), s.phases[t].op;
      && |s'.queue| <= s'.capacity == s.capacity && s'.called == s.called
      && s'.puts == s'.takes + s'.queue
      && |s'.queue| == (if op.Put? then |s.queue| + 1 else |s.queue| - 1)
      && |s'.puts| == (if op.Put? then |s.puts| + 1 else |s.puts|)
      && |s'.takes| == (if op.Put? then |s.takes| else |s.takes| + 1)
  {
    hide At, Pending, CountOps, Wake, NoLostWakeup;
    if s.phases[t].op.Take? {
      assert s.queue == [s.queue[0]] + s.queue[1..];
    }
  }

  lemma PassKeeps<T>(s: State<T>, t: Thread, woken: set<Thread>)
    requires Invariant(s) && Enabled(s, Lock(t, woken)) && !MustWait(s, s.phases[t].op)
    ensures Invariant(Apply(s, Lock(t, woken)))
  {
    PassSets(s, t, woken);
    PassQueue(s, t, woken);
    assert var me := s.phases[t].op.Take?; At(s, !me, Asleep) != {} ==> |woken| >= 1;
    hide At, Pending, CountOps, Apply;
    var me := s.phases[t].op.Take?;
    SizeWithout(Pending(s, me), t);
    SizeWithout(At(s, me, Awake), t);
    SizeOfUnion(At(s, !me, Awake), woken);
  }

  lemma EventKeeps<T>(s: State<T>, e: Event<T>)
    requires Invariant(s) && Enabled(s, e)
    ensures Invariant(Apply(s, e))
  {
    match e
    case Call(t, op) => CallKeeps(s, t, op);
    case WakeSpuriously(t) => SpuriousKeeps(s, t);
    case Lock(t, woken) =>
      if MustWait(s, s.phases[t].op) {
        WaitKeeps(s, t);
      } else {
        PassKeeps(s, t, woken);
      }
  }

  /** Main result: the invariant holds after every run, with any number of threads. */
  lemma {:induction false} RunsAreSafe<T>(capacity: nat, threads: set<Thread>, events: seq<Event<T>>)
    ensures Invariant(After(Init<T>(capacity, threads), events))
  {
    if events == [] {
      InitInvariant<T>(capacity, threads);
    } else {
      var n := |events| - 1;
      RunsAreSafe(capacity, threads, events[..n]);
      var s := After(Init<T>(capacity, threads), events[..n]);
      if Enabled(s, events[n]) {
        EventKeeps(s, events[n]);
      }
    }
  }

  // ---------- what callers gave and what became of it ----------

  /** The operations of a run's calls, in order; a call by a thread that is already inside has no effect. */
  ghost function Calls<T>(s: State<T>, events: seq<Event<T>>): seq<Op<T>> {
    if events == [] then []
    else
      var n := |events| - 1;
      Calls(s, events[..n])
        + (if events[n].Call? && Enabled(After(s, events[..n]), events[n]) then [events[n].op] else [])
  }

  /** The threads inside put with value x. */
  ghost function Holding<T>(s: State<T>, x: T): set<Thread> {
    set t | t in s.phases && s.phases[t].Inside? && s.phases[t].op == Put(x)
  }

  ghost predicate Given<T>(s: State<T>, calls: seq<Op<T>>, x: T) {
    multiset(calls)[Put(x)] == multiset(s.puts)[x] + |Holding(s, x)|
  }

  lemma HoldingAfter<T>(s: State<T>, e: Event<T>, x: T)
    requires Enabled(s, e)
    ensures var s' := Apply(s, e);
      match e
      case Call(t, op) =>
        t !in Holding(s, x) && Holding(s', x) == if op == Put(x) then Holding(s, x) + {t} else Holding(s, x)
      case WakeSpuriously(t) => Holding(s', x) == Holding(s, x)
      case Lock(t, woken) =>
        && (t in Holding(s, x) <==> s.phases[t].op == Put(x))
        && Holding(s', x) == if MustWait(s, s.phases[t].op) then Holding(s, x) else Holding(s, x) - {t}
  {
  }

  lemma GivenKept<T>(s: State<T>, calls: seq<Op<T>>, e: Event<T>, x: T)
    requires Given(s, calls, x) && Enabled(s, e)
    ensures Given(Apply(s, e), if e.Call? then calls + [e.op] else calls, x)
  {
    hide Holding;
    HoldingAfter(s, e, x);
    match e
    case Call(t, op) => SizeWith(Holding(s, x), t);
    case WakeSpuriously(t) =>
    case Lock(t, woken) => SizeWithout(Holding(s, x), t);
  }

  lemma {:induction false} GivenInRun<T>(s: State<T>, events: seq<Event<T>>, x: T)
    requires s.puts == [] && Holding(s, x) == {}
    ensures Given(After(s, events), Calls(s, events), x)
  {
    hide Enabled, Apply;
    if events == [] {
      assert After(s, events) == s && Calls(s, events) == [];
    } else {
      hide Given;
      var n := |events| - 1;
      GivenInRun(s, events[..n], x);
      if Enabled(After(s, events[..n]), events[n]) {
        GivenKept(After(s, events[..n]), Calls(s, events[..n]), events[n], x);
      } else {
        assert Calls(s, events) == Calls(s, events[..n]);
      }
    }
  }

  /**
   * Main result: in every run and for every value, as many copies as callers gave to put are handed out, stored, or
   * still in the hands of a thread inside put.
   */
  lemma ValuesConserved<T>(capacity: nat, threads: set<Thread>, events: seq<Event<T>>, x: T)
    ensures var s := After(Init<T>(capacity, threads), events);
      multiset(Calls(Init<T>(capacity, threads), events))[Put(x)]
        == multiset(s.takes)[x] + multiset(s.queue)[x] + |Holding(s, x)|
  {
    RunsAreSafe(capacity, threads, events);
    GivenInRun(Init<T>(capacity, threads), events, x);
    hide After, Holding, Calls;
  }

  datatype Request<T> = Nothing | Request(op: Op<T>)

  /** What thread t asked for last. */
  ghost function LastCall<T>(s: State<T>, events: seq<Event<T>>, t: Thread): Request<T> {
    if events == [] then Nothing
    else
      var n := |events| - 1;
      if events[n].Call? && events[n].t == t && Enabled(After(s, events[..n]), events[n]) then Request(events[n].op)
      else LastCall(s, events[..n], t)
  }

  /** The values stored in a run: that of each section of a putter that finds a free slot, in this order. */
  ghost function Stored<T>(s: State<T>, events: seq<Event<T>>): seq<T> {
    if events == [] then []
    else
      var n := |events| - 1;
      var t := After(s, events[..n]);
      Stored(s, events[..n])
        + (if events[n].Lock? && Enabled(t, events[n]) then
             match LastCall(s, events[..n], events[n].t)
             case Request(Put(x)) => if |t.queue| == t.capacity then [] else [x]
             case _ => []
           else [])
  }

  lemma {:induction false} InsideLastCall<T>(s: State<T>, events: seq<Event<T>>, t: Thread)
    requires forall u :: u in s.phases ==> s.phases[u].Idle?
    ensures var phases := After(s, events).phases;
      t in phases && phases[t].Inside? ==> LastCall(s, events, t) == Request(phases[t].op)
  {
    if events != [] {
      InsideLastCall(s, events[..|events| - 1], t);
    }
  }

  /** Main result: the queue holds what was stored and not yet handed out, in the order in which it was stored. */
  lemma FirstInFirstOut<T>(capacity: nat, threads: set<Thread>, events: seq<Event<T>>)
    ensures var s := After(Init<T>(capacity, threads), events);
      s.takes + s.queue == Stored(Init<T>(capacity, threads), events)
  {
    RunsAreSafe(capacity, threads, events);
    PutsStored(Init<T>(capacity, threads), events);
  }

  lemma {:induction false} PutsStored<T>(s: State<T>, events: seq<Event<T>>)
    requires s.puts == [] && forall u :: u in s.phases ==> s.phases[u].Idle?
    ensures After(s, events).puts == Stored(s, events)
  {
    hide LastCall;
    if events != [] {
      var n := |events| - 1;
      PutsStored(s, events[..n]);
      if events[n].Lock? {
        InsideLastCall(s, events[..n], events[n].t);
      }
    }
  }

  // ---------- what the invariant gives ----------

  /** No thread can take the mutex: every thread is outside or asleep. */
  ghost predicate Quiescent<T>(s: State<T>) {
    forall t :: !Runnable(s, t)
  }

  /**
   * Main result: in a reachable state where no thread can run, a sleeping taker faces an empty queue and a sleeping
   * putter a full one, so no wakeup was lost; the buffer is bounded and first in, first out.
   */
  lemma SleepIsJustified<T>(capacity: nat, threads: set<Thread>, events: seq<Event<T>>)
    ensures var s := After(Init<T>(capacity, threads), events);
      && |s.queue| <= s.capacity && s.puts == s.takes + s.queue
      && (Quiescent(s) && At(s, true, Asleep) != {} ==> s.queue == [])
      && (Quiescent(s) && At(s, false, Asleep) != {} ==> |s.queue| == s.capacity)
  {
    RunsAreSafe(capacity, threads, events);
    var s := After(Init<T>(capacity, threads), events);
    if Quiescent(s) {
      NoneAwake(s);
    }
  }

  lemma NoneAwake<T>(s: State<T>)
    requires Quiescent(s)
    ensures At(s, true, Awake) == {} && At(s, false, Awake) == {}
    ensures Pending(s, true) == At(s, true, Asleep) && Pending(s, false) == At(s, false, Asleep)
  {
    forall t | t in s.phases && s.phases[t].Inside?
      ensures s.phases[t].where == Asleep
    {
      assert !Runnable(s, t);
    }
  }

  lemma {:induction false} CapacityFixed<T>(s: State<T>, events: seq<Event<T>>)
    ensures After(s, events).capacity == s.capacity
  {
    if events != [] {
      CapacityFixed(s, events[..|events| - 1]);
    }
  }

  /** Whether a run can end with putters and takers asleep together and nobody able to run. */
  ghost predicate CanDeadlock(capacity: nat) {
    exists threads: set<Thread>, events: seq<Event<int>> ::
      var s := After(Init<int>(capacity, threads), events);
      Quiescent(s) && At(s, true, Asleep) != {} && At(s, false, Asleep) != {}
  }

  /** Main result: a deadlock is possible exactly for capacity 0, which no caller should ask for. */
  lemma DeadlockExactlyAtCapacityZero(capacity: nat)
    ensures CanDeadlock(capacity) <==> capacity == 0
  {
    forall threads: set<Thread>, events: seq<Event<int>>
      ensures var s := After(Init<int>(capacity, threads), events);
        Quiescent(s) && At(s, true, Asleep) != {} && At(s, false, Asleep) != {} ==> capacity == 0
    {
      SleepIsJustified(capacity, threads, events);
      CapacityFixed(Init<int>(capacity, threads), events);
    }
    if capacity == 0 {
      ZeroCapacityDeadlock();
    }
  }

  lemma AfterAppend<T>(s: State<T>, events: seq<Event<T>>, e: Event<T>)
    requires Enabled(After(s, events), e)
    ensures After(s, events + [e]) == Apply(After(s, events), e)
  {
    assert (events + [e])[..|events|] == events;
  }

  /** A putter and a taker of a queue of capacity 0 have both called. */
  lemma TwoCalls() returns (e: seq<Event<int>>)
    ensures var s := After(Init<int>(0, {0, 1}), e);
      && s.capacity == 0 && s.queue == []
      && s.phases == map[0 := Inside(Put(7), Entering), 1 := Inside(Take, Entering)]
  {
    var s0 := Init<int>(0, {0, 1});
    assert After(s0, []) == s0;
    hide After;
    AfterAppend(s0, [], Call(0, Put(7)));
    AfterAppend(s0, [] + [Call(0, Put(7))], Call(1, Take));
    e := [] + [Call(0, Put(7))] + [Call(1, Take)];
  }

  lemma ZeroCapacityDeadlock()
    ensures CanDeadlock(0)
  {
    var s0 := Init<int>(0, {0, 1});
    var e := TwoCalls();
    hide After;
    AfterAppend(s0, e, Lock(0, {}));
    AfterAppend(s0, e + [Lock(0, {})], Lock(1, {}));
    e := e + [Lock(0, {})] + [Lock(1, {})];
    var s := After(s0, e);
    assert s.phases == map[0 := Inside(Put(7), Asleep), 1 := Inside(Take, Asleep)];
    assert 0 in At(s, false, Asleep) && 1 in At(s, true, Asleep);
    assert Quiescent(s);
  }

  /**
   * Main result: when nobody can run any more, how many operations have completed depends only on how many were
   * called, not on the interleaving: every take that has an element, and every put that has a slot.
   */
  lemma QuiescentCounts<T>(capacity: nat, threads: set<Thread>, events: seq<Event<T>>)
    requires capacity >= 1
    requires Quiescent(After(Init<T>(capacity, threads), events))
    ensures var s := After(Init<T>(capacity, threads), events);
      var puts, takes := CountOps(s.called, false), CountOps(s.called, true);
      |s.takes| == Min(puts, takes) && |s.puts| == Min(puts, takes + capacity)
  {
    hide CountOps, At, Pending;
    var s := After(Init<T>(capacity, threads), events);
    RunsAreSafe(capacity, threads, events);
    CapacityFixed(Init<T>(capacity, threads), events);
    NoneAwake(s);
  }

  ghost function RunnableSet<T>(s: State<T>): set<Thread> {
    set t | t in s.phases && Runnable(s, t)
  }

  ghost function PendingCount<T>(s: State<T>): nat {
    |Pending(s, true)| + |Pending(s, false)|
  }

  /** A section completes a call, or sends a runnable thread to sleep. */
  lemma SectionsRunOut<T>(s: State<T>, t: Thread, woken: set<Thread>)
    requires Enabled(s, Lock(t, woken))
    ensures var s' := Apply(s, Lock(t, woken));
      PendingCount(s') < PendingCount(s) || (PendingCount(s') == PendingCount(s) && RunnableSet(s') < RunnableSet(s))
  {
    var s', me := Apply(s, Lock(t, woken)), s.phases[t].op.Take?;
    if MustWait(s, s.phases[t].op) {
      assert Pending(s', true) == Pending(s, true) && Pending(s', false) == Pending(s, false);
      assert t in RunnableSet(s) && t !in RunnableSet(s');
    } else {
      PassSets(s, t, woken);
      SizeWithout(Pending(s, me), t);
    }
  }

  lemma RunnablePending<T>(s: State<T>)
    ensures |RunnableSet(s)| <= PendingCount(s)
  {
    SizeOfSubset(RunnableSet(s), Pending(s, true) + Pending(s, false));
    SizeOfUnion(Pending(s, true), Pending(s, false));
  }

  function Triangle(n: nat): nat {
    if n == 0 then 0 else n + Triangle(n - 1)
  }

  lemma {:induction false} TriangleStep(m: nat, n: nat)
    requires m < n
    ensures Triangle(m) + n <= Triangle(n)
    decreases n
  {
    if m < n - 1 {
      TriangleStep(m, n - 1);
    }
  }

  /** A bound on the sections still to come: those that end in a wait, and those that complete a call. */
  ghost function SectionsLeft<T>(s: State<T>): nat {
    Triangle(PendingCount(s)) + |RunnableSet(s)|
  }

  lemma SectionUsedUp<T>(s: State<T>, t: Thread, woken: set<Thread>)
    requires Enabled(s, Lock(t, woken))
    ensures SectionsLeft(Apply(s, Lock(t, woken))) < SectionsLeft(s)
  {
    hide Apply, Enabled, Pending, RunnableSet, PendingCount;
    SectionsRunOut(s, t, woken);
    var s' := Apply(s, Lock(t, woken));
    if PendingCount(s') < PendingCount(s) {
      RunnablePending(s');
      TriangleStep(PendingCount(s'), PendingCount(s));
    } else {
      SizeOfSubset(RunnableSet(s'), RunnableSet(s));
      SizeOfUnion(RunnableSet(s'), RunnableSet(s) - RunnableSet(s'));
      assert RunnableSet(s) == RunnableSet(s') + (RunnableSet(s) - RunnableSet(s'));
    }
  }

  /** How many sections are run in a run. */
  ghost function SectionsRun<T>(s: State<T>, events: seq<Event<T>>): nat {
    if events == [] then 0
    else
      var n := |events| - 1;
      SectionsRun(s, events[..n]) + (if events[n].Lock? && Enabled(After(s, events[..n]), events[n]) then 1 else 0)
  }

  /** Main result: without new calls and spurious wakeups, no interleaving runs more than this many sections. */
  lemma {:induction false} SectionsBounded<T>(s: State<T>, events: seq<Event<T>>)
    requires forall i :: 0 <= i < |events| ==> events[i].Lock?
    ensures SectionsRun(s, events) + SectionsLeft(After(s, events)) <= SectionsLeft(s)
  {
    hide SectionsLeft, Enabled, Apply;
    if events != [] {
      var n := |events| - 1;
      SectionsBounded(s, events[..n]);
      var t := After(s, events[..n]);
      if Enabled(t, events[n]) {
        SectionUsedUp(t, events[n].t, events[n].woken);
      }
    }
  }

  lemma {:induction false} AfterCons<T>(s: State<T>, e: Event<T>, events: seq<Event<T>>)
    requires Enabled(s, e)
    ensures After(s, [e] + events) == After(Apply(s, e), events)
  {
    hide Enabled, Apply;
    var n := |events| - 1;
    if events == [] {
      assert [e] + events == [e] && [e][..0] == [];
      assert After(s, []) == s;
    } else {
      assert ([e] + events)[..n + 1] == [e] + events[..n];
      AfterCons(s, e, events[..n]);
    }
  }

  /** A thread that is awake can take the mutex. */
  lemma RunnableCanLock<T>(s: State<T>, t: Thread) returns (woken: set<Thread>)
    requires Runnable(s, t)
    ensures Enabled(s, Lock(t, woken))
  {
    var op := s.phases[t].op;
    woken := if MustWait(s, op) then {} else At(s, op.Put?, Asleep);
  }

  /** Main result: from any state, sections alone lead to one in which nobody can run; the counts above then hold. */
  lemma {:induction false} QuiescenceReached<T>(s: State<T>) returns (events: seq<Event<T>>)
    ensures forall i :: 0 <= i < |events| ==> events[i].Lock?
    ensures |events| <= SectionsLeft(s) && Quiescent(After(s, events))
    decreases SectionsLeft(s)
  {
    hide SectionsLeft, Runnable, Enabled, Apply;
    if t :| Runnable(s, t) {
      var woken := RunnableCanLock(s, t);
      var e := Lock(t, woken);
      SectionUsedUp(s, t, woken);
      var rest := QuiescenceReached(Apply(s, e));
      AfterCons(s, e, rest);
      events := [e] + rest;
    } else {
      events := [];
      assert After(s, events) == s;
    }
  }

  // ---------- the code ----------

  /** The object: its buffer, and the threads in it as ghost state. */
  class BoundedBlockingQueue<T> {
    const capacity: nat
    var queue: seq<T>
    ghost var phases: map<Thread, Phase<T>>
    ghost var puts: seq<T>
    ghost var takes: seq<T>
    ghost var called: seq<Op<T>>

    ghost function Value(): State<T>
      reads this
    {
      State(capacity, queue, phases, puts, takes, called)
    }

    constructor (maxSize: nat, ghost threads: set<Thread>)
      ensures Value() == Init(maxSize, threads)
    {
      capacity := maxSize;
      queue, puts, takes, called := [], [], [], [];
      phases := map t | t in threads :: Idle;
    }

    /** One critical section of put: wait while full, else store and notify a taker. */
    method PutSection(x: T, ghost t: Thread, ghost woken: set<Thread>) returns (done: bool)
      requires Enabled(Value(), Lock(t, woken)) && phases[t].op == Put(x)
      modifies this
      ensures Value() == Apply(old(Value()), Lock(t, woken))
      ensures done <==> |old(queue)| != capacity
      ensures queue == if done then old(queue) + [x] else old(queue)
    {
      if |queue| == capacity {
        phases := phases[t := Inside(Put(x), Asleep)];
        return false;
      }
      queue := queue + [x];
      puts := puts + [x];
      phases := Wake(phases, woken)[t := Idle];
      return true;
    }

    /** One critical section of take: wait while empty, else hand out the front and notify a putter. */
    method TakeSection(ghost t: Thread, ghost woken: set<Thread>) returns (front: seq<T>)
      requires Enabled(Value(), Lock(t, woken)) && phases[t].op == Take
      modifies this
      ensures Value() == Apply(old(Value()), Lock(t, woken))
      ensures front == if old(queue) == [] then [] else [old(queue)[0]]
      ensures old(queue) == front + queue
    {
      if queue == [] {
        phases := phases[t := Inside(Take, Asleep)];
        return [];
      }
      front := [queue[0]];
      takes := takes + [queue[0]];
      queue := queue[1..];
      phases := Wake(phases, woken)[t := Idle];
    }
  }
}
