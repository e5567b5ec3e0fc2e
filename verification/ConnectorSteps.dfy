/**
 * The connector: three states, a retry timer with back-off, and a channel whose deletion is deferred to the loop's
 * queue of functors. Every handler is one step of the loop thread; the outcome of system calls, the moment timers
 * fire and the order of events are the environment's. A ledger records what became of every descriptor.
 */
module ConnectorSteps {
  import opened Arithmetic
  import opened Words

  const INIT_RETRY_DELAY_MS: nat := 500
  const MAX_RETRY_DELAY_MS: nat := 30 * 1000

  datatype Phase = Disconnected | Connecting | Connected

  datatype Channel = NoChannel | Channel(fd: nat)

  datatype Functor = StartFunctor | StopFunctor | ResetFunctor

  /** errno after connect(). */
  datatype Errno =
    | Success | EINPROGRESS | EINTR | EISCONN
    | EAGAIN | EADDRINUSE | EADDRNOTAVAIL | ECONNREFUSED | ENETUNREACH
    | EACCES | EPERM | EAFNOSUPPORT | EALREADY | EBADF | EFAULT | ENOTSOCK | Other(code: nat)

  /** timers counts the armed calls of startInLoop; delays lists their delays since the last restart. */
  datatype State = State(
    connect: bool, phase: Phase, channel: Channel, retryDelayMs: nat,
    functors: seq<Functor>, timers: nat, delays: seq<nat>,
    nextFd: nat, handed: seq<nat>, closed: seq<nat>)

  /** Abort: an assertion of the code fails. */
  datatype Result = Ok(state: State) | Abort

  // ---------- the handlers ----------

  function Retry(s: State, fd: nat): State {
    var t := s.(closed := s.closed + [fd], phase := Disconnected);
    if t.connect
    then t.(timers := t.timers + 1, delays := t.delays + [t.retryDelayMs],
            retryDelayMs := Min(2 * t.retryDelayMs, MAX_RETRY_DELAY_MS))
    else t
  }

  function RemoveAndResetChannel(s: State): State {
    s.(functors := s.functors + [ResetFunctor])
  }

  function StartConnecting(s: State, fd: nat): Result {
    if s.channel.NoChannel? then Ok(s.(phase := Connecting, channel := Channel(fd))) else Abort
  }

  predicate InProgress(errno: Errno) {
    errno.Success? || errno.EINPROGRESS? || errno.EINTR? || errno.EISCONN?
  }

  predicate Retryable(errno: Errno) {
    errno.EAGAIN? || errno.EADDRINUSE? || errno.EADDRNOTAVAIL? || errno.ECONNREFUSED? || errno.ENETUNREACH?
  }

  function Connect(s: State, errno: Errno): Result {
    var fd, t := s.nextFd, s.(nextFd := s.nextFd + 1);
    if InProgress(errno) then StartConnecting(t, fd)
    else if Retryable(errno) then Ok(Retry(t, fd))
    else Ok(t.(closed := t.closed + [fd]))
  }

  function StartInLoop(s: State, errno: Errno): Result {
    if s.phase != Disconnected then Abort
    else if s.connect then Connect(s, errno)
    else Ok(s)
  }

  function StopInLoop(s: State): Result {
    if s.phase != Connecting then Ok(s)
    else if s.channel.NoChannel? then Abort
    else Ok(Retry(RemoveAndResetChannel(s.(phase := Disconnected)), s.channel.fd))
  }

  function Restart(s: State, errno: Errno): Result {
    StartInLoop(s.(phase := Disconnected, retryDelayMs := INIT_RETRY_DELAY_MS, delays := [], connect := true), errno)
  }

  function HandleWrite(s: State, soError: nat, selfConnect: bool): Result {
    if s.phase == Connecting then
      if s.channel.NoChannel? then Abort
      else
        var fd, t := s.channel.fd, RemoveAndResetChannel(s);
        if soError != 0 || selfConnect then Ok(Retry(t, fd))
        else if t.connect then Ok(t.(phase := Connected, handed := t.handed + [fd]))
        else Ok(t.(phase := Connected, closed := t.closed + [fd]))
    else if s.phase == Disconnected then Ok(s)
    else Abort
  }

  function HandleError(s: State): Result {
    if s.phase != Connecting || s.channel.NoChannel? then Abort
    else Ok(Retry(RemoveAndResetChannel(s), s.channel.fd))
  }

  // ---------- runs ----------

  datatype Event =
    | Start(inLoop: bool, errno: Errno)
    | Stop(inLoop: bool)
    | RestartCall(errno: Errno)
    | RunFunctor(errno: Errno)
    | Timer(errno: Errno)
    | Dispatch(error: bool, write: bool, soError: nat, selfConnect: bool)

  /** What the environment may do: restart is for callers outside kConnecting; events need a channel object. */
  predicate Possible(s: State, e: Event) {
    match e
    case Start(_, _) => true
    case Stop(_) => true
    case RestartCall(_) => s.phase != Connecting
    case RunFunctor(_) => s.functors != []
    case Timer(_) => s.timers > 0
    case Dispatch(_, _, _, _) => s.channel.Channel?
  }

  function Apply(s: State, e: Event): Result
    requires Possible(s, e)
  {
    match e
    case Start(inLoop, errno) =>
      var t := s.(connect := true);
      if inLoop then StartInLoop(t, errno) else Ok(t.(functors := t.functors + [StartFunctor]))
    case Stop(inLoop) =>
      var t := s.(connect := false);
      if inLoop then StopInLoop(t) else Ok(t.(functors := t.functors + [StopFunctor]))
    case RestartCall(errno) => Restart(s, errno)
    case RunFunctor(errno) =>
      var t := s.(functors := s.functors[1..]);
      (match s.functors[0]
       case StartFunctor => StartInLoop(t, errno)
       case StopFunctor => StopInLoop(t)
       case ResetFunctor => Ok(t.(channel := NoChannel)))
    case Timer(errno) => StartInLoop(s.(timers := s.timers - 1), errno)
    case Dispatch(error, write, soError, selfConnect) =>
      // the channel calls the error callback before the write callback
      var r := if error then HandleError(s) else Ok(s);
      if r.Ok? && write then HandleWrite(r.state, soError, selfConnect) else r
  }

  const INIT: State := State(false, Disconnected, NoChannel, INIT_RETRY_DELAY_MS, [], 0, [], 0, [], [])

  /** A run in which no assertion fails: impossible or aborting events have no effect. */
  function Next(s: State, e: Event): State {
    if Possible(s, e) && Apply(s, e).Ok? then Apply(s, e).state else s
  }

  function After(s: State, events: seq<Event>): State {
    if events == [] then s else Next(After(s, events[..|events| - 1]), events[|events| - 1])
  }

  // ---------- the invariant ----------

  function Count<T(==)>(s: seq<T>, x: T): nat {
    if s == [] then 0 else (if s[0] == x then 1 else 0) + Count(s[1..], x)
  }

  lemma {:induction false} CountAppend<T>(s: seq<T>, y: T, x: T)
    ensures Count(s + [y], x) == Count(s, x) + (if x == y then 1 else 0)
  {
    if s != [] {
      assert (s + [y])[1..] == s[1..] + [y];
      CountAppend(s[1..], y, x);
    }
  }

  /** A descriptor is held while the connecting channel owns it. */
  predicate Held(s: State, fd: nat) {
    s.phase == Connecting && s.channel == Channel(fd)
  }

  /** Every descriptor made so far is held, handed over or closed, exactly once; no other one is. */
  predicate Accounted(s: State, fd: nat) {
    Count(s.handed, fd) + Count(s.closed, fd) + (if Held(s, fd) then 1 else 0) == if fd < s.nextFd then 1 else 0
  }

  /** A reset is pending exactly when a channel is set that is not connecting. */
  predicate ResetInvariant(s: State) {
    && (s.phase == Connecting ==> s.channel.Channel?)
    && Count(s.functors, ResetFunctor) == if s.channel.Channel? && s.phase != Connecting then 1 else 0
  }

  /** 500 ms doubled for every retry, up to 30 s. */
  function BackOff(retries: nat): nat {
    Min(INIT_RETRY_DELAY_MS * Pow2(retries), MAX_RETRY_DELAY_MS)
  }

  predicate BackOffInvariant(s: State) {
    && s.retryDelayMs == BackOff(|s.delays|)
    && forall i :: 0 <= i < |s.delays| ==> s.delays[i] == BackOff(i)
  }

  ghost predicate Invariant(s: State) {
    && (forall fd: nat :: Accounted(s, fd))
    && ResetInvariant(s)
    && BackOffInvariant(s)
  }

  // ---------- every step keeps it ----------

  /** In the middle of a step: descriptor fd is in a local variable, all others are handed over or closed. */
  ghost predicate Loose(s: State, fd: nat) {
    && fd < s.nextFd
    && forall f: nat :: Count(s.handed, f) + Count(s.closed, f) == if f < s.nextFd && f != fd then 1 else 0
  }

  lemma CloseSettles(s: State, fd: nat, t: State)
    requires Loose(s, fd)
    requires t.nextFd == s.nextFd && t.phase != Connecting
    requires
      || (t.handed == s.handed + [fd] && t.closed == s.closed)
      || (t.handed == s.handed && t.closed == s.closed + [fd])
    ensures forall f: nat :: Accounted(t, f)
  {
    forall f: nat
      ensures Accounted(t, f)
    {
      CountAppend(s.handed, fd, f);
      CountAppend(s.closed, fd, f);
    }
  }

  /** Taking the descriptor out of the connecting channel and queueing the reset. */
  lemma TakenFromChannel(s: State)
    requires Invariant(s) && s.phase == Connecting
    ensures Loose(RemoveAndResetChannel(s), s.channel.fd)
    ensures Count(RemoveAndResetChannel(s).functors, ResetFunctor) == 1
  {
    CountAppend(s.functors, ResetFunctor, ResetFunctor);
    forall f: nat
      ensures Count(s.handed, f) + Count(s.closed, f) == if f < s.nextFd && f != s.channel.fd then 1 else 0
    {
      assert Accounted(s, f);
    }
    assert Accounted(s, s.channel.fd);
  }

  lemma BackOffStep(retries: nat)
    ensures Min(2 * BackOff(retries), MAX_RETRY_DELAY_MS) == BackOff(retries + 1)
  {
  }

  lemma RetryKeeps(s: State, fd: nat)
    requires Loose(s, fd) && BackOffInvariant(s)
    requires Count(s.functors, ResetFunctor) == if s.channel.Channel? then 1 else 0
    ensures Invariant(Retry(s, fd))
  {
    var t := Retry(s, fd);
    CloseSettles(s, fd, t);
    BackOffStep(|s.delays|);
  }

  lemma HandleErrorKeeps(s: State)
    requires Invariant(s) && HandleError(s).Ok?
    ensures Invariant(HandleError(s).state)
  {
    TakenFromChannel(s);
    RetryKeeps(RemoveAndResetChannel(s), s.channel.fd);
  }

  lemma HandleWriteKeeps(s: State, soError: nat, selfConnect: bool)
    requires Invariant(s) && HandleWrite(s, soError, selfConnect).Ok?
    ensures Invariant(HandleWrite(s, soError, selfConnect).state)
  {
    if s.phase == Connecting {
      TakenFromChannel(s);
      if soError != 0 || selfConnect {
        RetryKeeps(RemoveAndResetChannel(s), s.channel.fd);
      } else {
        CloseSettles(RemoveAndResetChannel(s), s.channel.fd, HandleWrite(s, soError, selfConnect).state);
      }
    }
  }

  lemma StopInLoopKeeps(s: State)
    requires Invariant(s) && StopInLoop(s).Ok?
    ensures Invariant(StopInLoop(s).state)
  {
    if s.phase == Connecting {
      TakenFromChannel(s);
      RetryKeeps(RemoveAndResetChannel(s).(phase := Disconnected), s.channel.fd);
    }
  }

  lemma ConnectKeeps(s: State, errno: Errno)
    requires Invariant(s) && s.phase == Disconnected && Connect(s, errno).Ok?
    ensures Invariant(Connect(s, errno).state)
  {
    var fd, t := s.nextFd, s.(nextFd := s.nextFd + 1);
    forall f: nat
      ensures Count(t.handed, f) + Count(t.closed, f) == if f < t.nextFd && f != fd then 1 else 0
    {
      assert Accounted(s, f);
    }
    if InProgress(errno) {
      assert forall f: nat :: Accounted(Connect(s, errno).state, f);
    } else if Retryable(errno) {
      RetryKeeps(t, fd);
    } else {
      CloseSettles(t, fd, Connect(s, errno).state);
    }
  }

  lemma StartInLoopKeeps(s: State, errno: Errno)
    requires Invariant(s) && StartInLoop(s, errno).Ok?
    ensures Invariant(StartInLoop(s, errno).state)
  {
    if s.connect {
      ConnectKeeps(s, errno);
    }
  }

  /** The invariant does not look at connect or timers, nor at functors other than resets. */
  lemma Unrelated(s: State, t: State)
    requires Invariant(s)
    requires t == s.(connect := t.connect, timers := t.timers, functors := t.functors)
    requires Count(t.functors, ResetFunctor) == Count(s.functors, ResetFunctor)
    ensures Invariant(t)
  {
    assert forall f: nat :: Accounted(s, f) ==> Accounted(t, f);
  }

  lemma RestartKeeps(s: State, errno: Errno)
    requires Invariant(s) && s.phase != Connecting && Restart(s, errno).Ok?
    ensures Invariant(Restart(s, errno).state)
  {
    var t := s.(phase := Disconnected, retryDelayMs := INIT_RETRY_DELAY_MS, delays := [], connect := true);
    assert forall f: nat :: Accounted(s, f) ==> Accounted(t, f);
    StartInLoopKeeps(t, errno);
  }

  lemma FunctorKeeps(s: State, errno: Errno)
    requires Invariant(s) && s.functors != [] && Apply(s, RunFunctor(errno)).Ok?
    ensures Invariant(Apply(s, RunFunctor(errno)).state)
  {
    var t := s.(functors := s.functors[1..]);
    match s.functors[0] {
      case StartFunctor =>
        Unrelated(s, t);
        StartInLoopKeeps(t, errno);
      case StopFunctor =>
        Unrelated(s, t);
        StopInLoopKeeps(t);
      case ResetFunctor =>
        var u := t.(channel := NoChannel);
        assert forall f: nat :: Accounted(s, f) ==> Accounted(u, f);
    }
  }

  lemma EventKeeps(s: State, e: Event)
    requires Invariant(s) && Possible(s, e) && Apply(s, e).Ok?
    ensures Invariant(Apply(s, e).state)
  {
    hide Invariant, StartInLoop, StopInLoop, Restart, HandleError, HandleWrite;
    match e
    case Start(inLoop, errno) =>
      var t := s.(connect := true);
      Unrelated(s, t);
      if inLoop {
        StartInLoopKeeps(t, errno);
      } else {
        CountAppend(s.functors, StartFunctor, ResetFunctor);
        Unrelated(t, t.(functors := t.functors + [StartFunctor]));
      }
    case Stop(inLoop) =>
      var t := s.(connect := false);
      Unrelated(s, t);
      if inLoop {
        StopInLoopKeeps(t);
      } else {
        CountAppend(s.functors, StopFunctor, ResetFunctor);
        Unrelated(t, t.(functors := t.functors + [StopFunctor]));
      }
    case RestartCall(errno) => RestartKeeps(s, errno);
    case RunFunctor(errno) => FunctorKeeps(s, errno);
    case Timer(errno) =>
      Unrelated(s, s.(timers := s.timers - 1));
      StartInLoopKeeps(s.(timers := s.timers - 1), errno);
    case Dispatch(error, write, soError, selfConnect) =>
      if error {
        HandleErrorKeeps(s);
      }
      if write {
        HandleWriteKeeps(if error then HandleError(s).state else s, soError, selfConnect);
      }
  }

  lemma {:induction false} RunsAreSafe(events: seq<Event>)
    ensures Invariant(After(INIT, events))
  {
    if events == [] {
      assert forall f: nat :: Accounted(INIT, f);
    } else {
      var n := |events| - 1;
      RunsAreSafe(events[..n]);
      var s := After(INIT, events[..n]);
      if Possible(s, events[n]) && Apply(s, events[n]).Ok? {
        EventKeeps(s, events[n]);
      }
    }
  }

  // ---------- what the invariant gives ----------

  /**
   * Main result: in every run, each descriptor made by connect() is in exactly one of three places, the connecting
   * channel, the callback's hands or the closed ones, and there once; no other descriptor is touched.
   */
  lemma DescriptorsAccounted(events: seq<Event>, fd: nat)
    ensures var s := After(INIT, events);
      && (fd < s.nextFd ==>
           || (Held(s, fd) && Count(s.handed, fd) == 0 && Count(s.closed, fd) == 0)
           || (!Held(s, fd) && Count(s.handed, fd) == 1 && Count(s.closed, fd) == 0)
           || (!Held(s, fd) && Count(s.handed, fd) == 0 && Count(s.closed, fd) == 1))
      && (fd >= s.nextFd ==> !Held(s, fd) && Count(s.handed, fd) == 0 && Count(s.closed, fd) == 0)
  {
    RunsAreSafe(events);
    assert Accounted(After(INIT, events), fd);
  }

  /**
   * Main result: a deferred reset is pending exactly while a channel is set that is not connecting, there is never
   * more than one, and when it runs it deletes a channel that is no longer connecting.
   */
  lemma DeferredResetSafe(events: seq<Event>)
    ensures var s := After(INIT, events);
      && Count(s.functors, ResetFunctor) <= 1
      && (Count(s.functors, ResetFunctor) == 1 <==> s.channel.Channel? && s.phase != Connecting)
      && (s.functors != [] && s.functors[0] == ResetFunctor ==> s.channel.Channel? && s.phase != Connecting)
  {
    RunsAreSafe(events);
    var s := After(INIT, events);
    if s.functors != [] && s.functors[0] == ResetFunctor {
      assert Count(s.functors, ResetFunctor) == 1 + Count(s.functors[1..], ResetFunctor);
    }
  }

  /** Main result: since the last restart the i-th retry waited min(500 * 2^i, 30000) ms. */
  lemma RetriesBackOff(events: seq<Event>, i: nat)
    requires i < |After(INIT, events).delays|
    ensures After(INIT, events).delays[i] == Min(500 * Pow2(i), 30000)
    ensures 500 <= After(INIT, events).delays[i] <= After(INIT, events).retryDelayMs <= 30000
  {
    RunsAreSafe(events);
    BackOffGrows(i, |After(INIT, events).delays|);
  }

  lemma {:induction false} BackOffGrows(i: nat, j: nat)
    requires i <= j
    ensures 500 <= BackOff(i) <= BackOff(j) <= 30000
    decreases j
  {
    if i < j {
      BackOffGrows(i, j - 1);
    }
  }

  /** An error and a write event in one dispatch: the error is handled, the write callback finds nothing to do. */
  lemma ErrorAndWriteTogether(events: seq<Event>, soError: nat, selfConnect: bool)
    requires After(INIT, events).phase == Connecting
    ensures var s := After(INIT, events);
      && s.channel.Channel?
      && var r := Apply(s, Dispatch(true, true, soError, selfConnect));
      && r == HandleError(s) && r.Ok?
      && r.state.closed == s.closed + [s.channel.fd] && r.state.handed == s.handed
  {
    RunsAreSafe(events);
  }

  // ---------- when the assertions of the code can fail ----------

  /** The assertions met by start in the loop thread itself: they hold, whatever connect() answers, exactly then. */
  lemma StartNowIff(s: State)
    ensures (forall errno :: Apply(s, Start(true, errno)).Ok?) <==> s.phase == Disconnected && s.channel.NoChannel?
  {
    if s.phase == Disconnected && s.channel.Channel? {
      assert Apply(s, Start(true, EINPROGRESS)).Abort?;
    }
    if s.phase != Disconnected {
      assert Apply(s, Start(true, EINPROGRESS)).Abort?;
    }
  }

  /** The same for restart outside kConnecting. */
  lemma RestartNowIff(s: State)
    requires s.phase != Connecting
    ensures (forall errno :: Apply(s, RestartCall(errno)).Ok?) <==> s.channel.NoChannel?
  {
    if s.channel.Channel? {
      assert Apply(s, RestartCall(EINPROGRESS)).Abort?;
    }
  }

  /** stop leaves an armed retry timer behind; after a new start it finds the connector connecting, and asserts. */
  lemma LeftoverTimerAborts() returns (events: seq<Event>)
    ensures var s := After(INIT, events); Possible(s, Timer(EINPROGRESS)) && Apply(s, Timer(EINPROGRESS)).Abort?
  {
    events := [Start(true, ECONNREFUSED), Stop(true), Start(true, EINPROGRESS)];
    assert events[..2][..1] == events[..1] && events[..1][..0] == [];
    var s1 := Next(INIT, events[0]);
    assert After(INIT, events[..1]) == s1;
    var s2 := Next(s1, events[1]);
    assert After(INIT, events[..2]) == s2;
  }

  /** stop then start from another thread: the queued start runs before the reset that the queued stop defers. */
  lemma StopThenStartAborts() returns (events: seq<Event>)
    ensures var s := After(INIT, events);
      Possible(s, RunFunctor(EINPROGRESS)) && Apply(s, RunFunctor(EINPROGRESS)).Abort?
  {
    events := [Start(true, EINPROGRESS), Stop(false), Start(false, EINPROGRESS), RunFunctor(EINPROGRESS)];
    assert events[..3][..2] == events[..2] && events[..2][..1] == events[..1] && events[..1][..0] == [];
    var s1 := Next(INIT, events[0]);
    assert After(INIT, events[..1]) == s1;
    var s2 := Next(s1, events[1]);
    assert After(INIT, events[..2]) == s2;
    var s3 := Next(s2, events[2]);
    assert After(INIT, events[..3]) == s3;
    var s4 := Next(s3, events[3]);
    assert After(INIT, events) == s4;
  }

  /** Calls of startInLoop on their way: armed timers and queued starts. */
  function Starts(s: State): nat {
    s.timers + Count(s.functors, StartFunctor)
  }

  /** The loop runs deferred resets before it fires timers, and reports events of connecting channels only. */
  predicate LoopOrder(s: State, e: Event) {
    match e
    case Timer(_) => Count(s.functors, ResetFunctor) == 0
    case Dispatch(_, _, _, _) => s.phase == Connecting
    case _ => true
  }

  /** What can follow a start as long as nobody calls start or restart again. */
  predicate FollowsUp(s: State, e: Event) {
    !e.Start? && !e.RestartCall? && Possible(s, e) && LoopOrder(s, e)
  }

  /** These events lead to a failing assertion. */
  ghost predicate Aborts(s: State, events: seq<Event>)
    decreases |events|
  {
    && events != []
    && FollowsUp(s, events[0])
    && var r := Apply(s, events[0]); r.Abort? || Aborts(r.state, events[1..])
  }

  ghost predicate CanAbort(s: State) {
    exists events :: Aborts(s, events)
  }

  /** Whatever connect() answers, no assertion fails in start, nor later on without another start or restart. */
  ghost predicate StartSafe(s: State, inLoop: bool) {
    forall errno :: var r := Apply(s, Start(inLoop, errno)); r.Ok? && !CanAbort(r.state)
  }

  ghost predicate RestartSafe(s: State)
    requires s.phase != Connecting
  {
    forall errno :: var r := Apply(s, RestartCall(errno)); r.Ok? && !CanAbort(r.state)
  }

  /** What a caller of start can check: disconnected, no start on its way and, in the loop thread, no channel left. */
  predicate MayStart(s: State, inLoop: bool) {
    s.phase == Disconnected && Starts(s) == 0 && (inLoop ==> s.channel.NoChannel?)
  }

  predicate MayRestart(s: State) {
    s.channel.NoChannel? && Starts(s) == 0
  }

  /** A reset is queued, and before any start. */
  predicate ResetFirst(functors: seq<Functor>) {
    && functors != []
    && (functors[0] == ResetFunctor || (functors[0] != StartFunctor && ResetFirst(functors[1..])))
  }

  lemma {:induction false} ResetFirstAppend(functors: seq<Functor>, f: Functor)
    ensures ResetFirst(functors) ==> ResetFirst(functors + [f])
    ensures StartFunctor in functors && !ResetFirst(functors) ==> !ResetFirst(functors + [f])
  {
    if functors != [] {
      assert (functors + [f])[1..] == functors[1..] + [f];
      ResetFirstAppend(functors[1..], f);
    }
  }

  lemma {:induction false} ResetFirstCount(functors: seq<Functor>)
    ensures Count(functors, ResetFunctor) == 0 ==> !ResetFirst(functors)
    ensures Count(functors, ResetFunctor) > 0 && Count(functors, StartFunctor) == 0 ==> ResetFirst(functors)
  {
    if functors != [] {
      ResetFirstCount(functors[1..]);
    }
  }

  /** At most one start is on its way, to a disconnected connector, and a queued one finds the channel deleted. */
  predicate Orderly(s: State) {
    && Starts(s) <= 1
    && (Starts(s) == 1 ==> s.phase == Disconnected)
    && (Count(s.functors, StartFunctor) == 1 ==> s.channel.NoChannel? || ResetFirst(s.functors))
  }

  /** startInLoop with its own start no longer counted. */
  lemma OrderlyStart(s: State, errno: Errno)
    requires ResetInvariant(s) && Starts(s) == 0 && s.phase == Disconnected && s.channel.NoChannel?
    ensures StartInLoop(s, errno).Ok? && Orderly(StartInLoop(s, errno).state)
  {
  }

  /** Leaving kConnecting arms at most one retry. */
  lemma OrderlyLeave(s: State)
    requires ResetInvariant(s) && Starts(s) == 0 && s.phase == Connecting
    ensures HandleError(s).Ok? && Orderly(HandleError(s).state) && HandleError(s).state.phase == Disconnected
    ensures forall soError, selfConnect ::
      HandleWrite(s, soError, selfConnect).Ok? && Orderly(HandleWrite(s, soError, selfConnect).state)
    ensures StopInLoop(s).Ok? && Orderly(StopInLoop(s).state)
  {
    CountAppend(s.functors, ResetFunctor, StartFunctor);
  }

  lemma OrderlyFunctor(s: State, errno: Errno)
    requires Invariant(s) && Orderly(s) && s.functors != []
    ensures Apply(s, RunFunctor(errno)).Ok? && Orderly(Apply(s, RunFunctor(errno)).state)
  {
    var t := s.(functors := s.functors[1..]);
    match s.functors[0] {
      case StartFunctor => OrderlyStart(t, errno);
      case StopFunctor => if t.phase == Connecting { OrderlyLeave(t); }
      case ResetFunctor =>
    }
  }

  /** Once a start has been orderly, no event but another start or restart can fail an assertion. */
  lemma OrderlyStep(s: State, e: Event)
    requires Invariant(s) && Orderly(s) && FollowsUp(s, e)
    ensures Apply(s, e).Ok? && Orderly(Apply(s, e).state)
  {
    hide StartInLoop, HandleError, HandleWrite, StopInLoop;
    match e
    case Stop(inLoop) =>
      CountAppend(s.functors, StopFunctor, StartFunctor);
      ResetFirstAppend(s.functors, StopFunctor);
      if s.phase == Connecting {
        OrderlyLeave(s.(connect := false));
      } else if inLoop {
        StopIgnored(s.(connect := false));
      }
    case RunFunctor(errno) => OrderlyFunctor(s, errno);
    case Timer(errno) => OrderlyStart(s.(timers := s.timers - 1), errno);
    case Dispatch(error, write, soError, selfConnect) =>
      OrderlyLeave(s);
      if error {
        WriteIgnored(HandleError(s).state, soError, selfConnect);
      }
  }

  lemma StopIgnored(s: State)
    requires s.phase != Connecting
    ensures StopInLoop(s) == Ok(s)
  {
  }

  lemma WriteIgnored(s: State, soError: nat, selfConnect: bool)
    requires s.phase == Disconnected
    ensures HandleWrite(s, soError, selfConnect) == Ok(s)
  {
  }

  lemma StartIsOrderly(s: State, inLoop: bool, errno: Errno)
    requires Invariant(s) && MayStart(s, inLoop)
    ensures var r := Apply(s, Start(inLoop, errno)); r.Ok? && Orderly(r.state)
  {
    if inLoop {
      OrderlyStart(s.(connect := true), errno);
    } else {
      CountAppend(s.functors, StartFunctor, StartFunctor);
      ResetFirstCount(s.functors);
      ResetFirstAppend(s.functors, StartFunctor);
    }
  }

  lemma RestartIsOrderly(s: State, errno: Errno)
    requires Invariant(s) && s.phase != Connecting && MayRestart(s)
    ensures var r := Apply(s, RestartCall(errno)); r.Ok? && Orderly(r.state)
  {
    OrderlyStart(
      s.(phase := Disconnected, retryDelayMs := INIT_RETRY_DELAY_MS, delays := [], connect := true), errno);
  }

  lemma {:induction false} OrderlyNeverAborts(s: State, events: seq<Event>)
    requires Invariant(s) && Orderly(s)
    ensures !Aborts(s, events)
    decreases |events|
  {
    hide Invariant, Orderly, Apply, Possible, LoopOrder;
    if events != [] && FollowsUp(s, events[0]) {
      OrderlyStep(s, events[0]);
      EventKeeps(s, events[0]);
      OrderlyNeverAborts(Apply(s, events[0]).state, events[1..]);
    }
  }

  /** Looking one event ahead for a failing assertion. */
  lemma CanAbortAfter(s: State, e: Event)
    requires FollowsUp(s, e) && (Apply(s, e).Abort? || CanAbort(Apply(s, e).state))
    ensures CanAbort(s)
  {
    hide Apply, Possible, LoopOrder;
    if Apply(s, e).Abort? {
      assert Aborts(s, [e]);
    } else {
      var events :| Aborts(Apply(s, e).state, events);
      assert ([e] + events)[1..] == events;
      assert Aborts(s, [e] + events);
    }
  }

  /** A queued start that runs while a channel is set and no reset comes before it. */
  lemma {:induction false} QueuedStartAborts(s: State)
    requires s.connect && s.channel.Channel? && StartFunctor in s.functors && !ResetFirst(s.functors)
    ensures CanAbort(s)
    decreases s.phase == Connecting, |s.functors|
  {
    var e := RunFunctor(EINPROGRESS);
    if s.functors[0] == StopFunctor {
      ResetFirstAppend(s.functors[1..], ResetFunctor);
      QueuedStartAborts(Apply(s, e).state);
    }
    CanAbortAfter(s, e);
  }

  /** A queued start that runs after the connection has been handed over. */
  lemma {:induction false} ConnectedStartAborts(s: State)
    requires s.phase == Connected && StartFunctor in s.functors
    ensures CanAbort(s)
    decreases |s.functors|
  {
    var e := RunFunctor(EINPROGRESS);
    if s.functors[0] != StartFunctor {
      ConnectedStartAborts(Apply(s, e).state);
    }
    CanAbortAfter(s, e);
  }

  lemma {:induction false} CountedIn(functors: seq<Functor>, f: Functor)
    requires Count(functors, f) > 0
    ensures f in functors
  {
    if functors[0] != f {
      CountedIn(functors[1..], f);
    }
  }

  /** A start that is still on its way when the connector is connecting again. */
  lemma SecondStartAborts(s: State)
    requires Invariant(s) && s.phase == Connecting && s.connect && Starts(s) > 0
    ensures CanAbort(s)
  {
    if s.timers > 0 {
      CanAbortAfter(s, Timer(EINPROGRESS));
    } else {
      CountedIn(s.functors, StartFunctor);
      ResetFirstCount(s.functors);
      QueuedStartAborts(s);
    }
  }

  /** Two starts on their way: the first leads to kConnecting, where the second must not arrive. */
  lemma {:induction false} TwoStartsAbort(s: State)
    requires Invariant(s) && s.phase == Disconnected && s.connect && Starts(s) >= 2
    ensures CanAbort(s)
    decreases |s.functors|
  {
    var e := if s.functors == [] then Timer(EINPROGRESS) else RunFunctor(EINPROGRESS);
    if Apply(s, e).Ok? {
      EventKeeps(s, e);
      var t := Apply(s, e).state;
      if t.phase == Connecting {
        SecondStartAborts(t);
      } else {
        TwoStartsAbort(t);
      }
    }
    CanAbortAfter(s, e);
  }

  lemma UnsafeStart(s: State, inLoop: bool)
    requires Invariant(s) && !MayStart(s, inLoop)
    ensures !StartSafe(s, inLoop)
  {
    var r := Apply(s, Start(inLoop, EINPROGRESS));
    if r.Ok? {
      EventKeeps(s, Start(inLoop, EINPROGRESS));
      CountAppend(s.functors, StartFunctor, StartFunctor);
      match r.state.phase {
        case Connecting => SecondStartAborts(r.state);
        case Connected => ConnectedStartAborts(r.state);
        case Disconnected => TwoStartsAbort(r.state);
      }
    }
  }

  /**
   * Main result: start is documented to be callable at any time. It is safe, whatever connect() answers and whatever
   * the loop and calls of stop do afterwards, if and only if the connector is disconnected, no timer or queued start
   * is left over and, for a call in the loop thread, no channel is waiting to be deleted.
   */
  lemma StartSafeIff(s: State, inLoop: bool)
    requires Invariant(s)
    ensures StartSafe(s, inLoop) <==> MayStart(s, inLoop)
  {
    hide Invariant, Orderly, Apply, MayStart, CanAbort;
    if MayStart(s, inLoop) {
      forall errno
        ensures var r := Apply(s, Start(inLoop, errno)); r.Ok? && !CanAbort(r.state)
      {
        StartIsOrderly(s, inLoop, errno);
        EventKeeps(s, Start(inLoop, errno));
        OrderlyCannotAbort(Apply(s, Start(inLoop, errno)).state);
      }
    } else {
      UnsafeStart(s, inLoop);
    }
  }

  lemma OrderlyCannotAbort(s: State)
    requires Invariant(s) && Orderly(s)
    ensures !CanAbort(s)
  {
    hide Invariant, Orderly, Aborts;
    forall events
      ensures !Aborts(s, events)
    {
      OrderlyNeverAborts(s, events);
    }
  }

  /** Main result: the same for restart, which is for callers outside kConnecting. */
  lemma RestartSafeIff(s: State)
    requires Invariant(s) && s.phase != Connecting
    ensures RestartSafe(s) <==> MayRestart(s)
  {
    hide Invariant, Orderly, CanAbort, StartInLoop;
    if MayRestart(s) {
      forall errno
        ensures var r := Apply(s, RestartCall(errno)); r.Ok? && !CanAbort(r.state)
      {
        RestartIsOrderly(s, errno);
        EventKeeps(s, RestartCall(errno));
        OrderlyCannotAbort(Apply(s, RestartCall(errno)).state);
      }
    } else {
      UnsafeRestart(s);
    }
  }

  lemma UnsafeRestart(s: State)
    requires Invariant(s) && s.phase != Connecting && !MayRestart(s)
    ensures !RestartSafe(s)
  {
    var r := Apply(s, RestartCall(EINPROGRESS));
    if r.Ok? {
      EventKeeps(s, RestartCall(EINPROGRESS));
      SecondStartAborts(r.state);
    }
  }

  /** The usage in which every start and restart is a safe one. */
  predicate Disciplined(s: State, e: Event) {
    match e
    case Start(inLoop, _) => MayStart(s, inLoop)
    case RestartCall(_) => MayRestart(s)
    case _ => LoopOrder(s, e)
  }

  lemma DisciplinedStep(s: State, e: Event)
    requires Invariant(s) && Orderly(s) && Possible(s, e) && Disciplined(s, e)
    ensures Apply(s, e).Ok? && Orderly(Apply(s, e).state)
  {
    hide Invariant, Orderly, Apply, MayStart, MayRestart, LoopOrder;
    match e
    case Start(inLoop, errno) => StartIsOrderly(s, inLoop, errno);
    case RestartCall(errno) => RestartIsOrderly(s, errno);
    case _ => OrderlyStep(s, e);
  }

  ghost predicate DisciplinedRun(events: seq<Event>) {
    events == [] ||
    var n := |events| - 1; var s := After(INIT, events[..n]);
    DisciplinedRun(events[..n]) && Possible(s, events[n]) && Disciplined(s, events[n])
  }

  ghost predicate AssertionsHold(events: seq<Event>) {
    events == [] ||
    var n := |events| - 1; var s := After(INIT, events[..n]);
    AssertionsHold(events[..n]) && Possible(s, events[n]) && Apply(s, events[n]).Ok?
  }

  /** Main result: in a run whose starts and restarts are all safe ones, no assertion of the code ever fails. */
  lemma {:induction false} DisciplinedRunsNeverAbort(events: seq<Event>)
    requires DisciplinedRun(events)
    ensures AssertionsHold(events) && Orderly(After(INIT, events))
  {
    hide Invariant, Possible, Disciplined, Apply, Orderly;
    if events == [] {
      InitOrderly();
    } else {
      var n := |events| - 1;
      DisciplinedRunsNeverAbort(events[..n]);
      RunsAreSafe(events[..n]);
      DisciplinedStep(After(INIT, events[..n]), events[n]);
    }
  }

  lemma InitOrderly()
    ensures Orderly(After(INIT, []))
  {
  }
}
