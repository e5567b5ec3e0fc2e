/**
 * What becomes of every connection attempt, read off the events of a run: which errno keeps a descriptor, which event
 * hands it over or closes it, and when a retry is armed. None of it mentions the handlers that bring it about.
 */
module ConnectorOutcomes {
  import opened Steps = ConnectorSteps

  /** The event calls connect() on a new descriptor: startInLoop runs, is wanted, and finds the connector idle. */
  predicate Attempts(s: State, e: Event) {
    match e
    case Start(inLoop, _) => inLoop && s.phase == Disconnected
    case RestartCall(_) => s.phase != Connecting
    case RunFunctor(_) => s.functors != [] && s.functors[0] == StartFunctor && s.phase == Disconnected && s.connect
    case Timer(_) => s.timers > 0 && s.phase == Disconnected && s.connect
    case Stop(_) => false
    case Dispatch(_, _, _, _) => false
  }

  /** The attempt is under way, on a connector whose old channel is gone. */
  predicate Opens(s: State, e: Event) {
    Attempts(s, e) && e.errno in {Success, EINPROGRESS, EINTR, EISCONN} && s.channel == NoChannel
  }

  /** connect() refuses at once. */
  predicate Refused(s: State, e: Event) {
    Attempts(s, e) && e.errno !in {Success, EINPROGRESS, EINTR, EISCONN}
  }

  predicate RefusedForNow(s: State, e: Event) {
    Attempts(s, e) && e.errno in {EAGAIN, EADDRINUSE, EADDRNOTAVAIL, ECONNREFUSED, ENETUNREACH}
  }

  /** The connecting socket becomes writable, without an error and not connected to itself. */
  predicate Established(s: State, e: Event) {
    s.phase == Connecting && e.Dispatch? && e.write && !e.error && e.soError == 0 && !e.selfConnect
  }

  predicate Delivers(s: State, e: Event) {
    Established(s, e) && s.connect
  }

  /** The connecting socket reports an error, turns out to have failed, or to be connected to itself. */
  predicate Broken(s: State, e: Event) {
    s.phase == Connecting && e.Dispatch? && (e.error || (e.write && (e.soError != 0 || e.selfConnect)))
  }

  /** stopInLoop finds an attempt under way. */
  predicate CutShort(s: State, e: Event) {
    s.phase == Connecting && (e == Stop(true) || (e.RunFunctor? && s.functors != [] && s.functors[0] == StopFunctor))
  }

  predicate Wanted(s: State, e: Event) {
    s.connect && e != Stop(true)
  }

  /** The held descriptor is closed: its attempt failed, was stopped, or succeeded when nobody wanted it any more. */
  predicate GivesUp(s: State, e: Event) {
    Broken(s, e) || CutShort(s, e) || (Established(s, e) && !s.connect)
  }

  /** A retry timer is armed: the attempt failed, for now, and is still wanted. */
  predicate Retries(s: State, e: Event) {
    ((Broken(s, e) || CutShort(s, e)) && Wanted(s, e)) || RefusedForNow(s, e)
  }

  /** The event happens, and no assertion stops it. */
  predicate Effective(s: State, e: Event) {
    Possible(s, e) && Apply(s, e).Ok?
  }

  // ---------- one step ----------

  predicate LedgerStep(s: State, e: Event, t: State) {
    && t.handed == (if Delivers(s, e) && s.channel.Channel? then s.handed + [s.channel.fd] else s.handed)
    && t.closed == (if GivesUp(s, e) && s.channel.Channel? then s.closed + [s.channel.fd]
                    else if Refused(s, e) then s.closed + [s.nextFd] else s.closed)
    && t.nextFd == (if Opens(s, e) || Refused(s, e) then s.nextFd + 1 else s.nextFd)
    && t.channel == (if Opens(s, e) then Channel(s.nextFd)
                     else if e.RunFunctor? && s.functors != [] && s.functors[0] == ResetFunctor then NoChannel
                     else s.channel)
  }

  predicate PhaseStep(s: State, e: Event, t: State) {
    && (t.phase == Connecting <==> Opens(s, e) || (s.phase == Connecting && !Established(s, e) && !GivesUp(s, e)))
    && (t.phase == Connected <==> Established(s, e) || (s.phase == Connected && !(e.RestartCall? && Effective(s, e))))
    && (t.connect <==> if Effective(s, e) && (e.Start? || e.RestartCall?) then true
                       else if Effective(s, e) && e.Stop? then false else s.connect)
  }

  predicate RetryStep(s: State, e: Event, t: State) {
    && t.timers == s.timers + (if Retries(s, e) then 1 else 0) - (if e.Timer? && Effective(s, e) then 1 else 0)
    && |t.delays| == (if e.RestartCall? && Effective(s, e) then 0 else |s.delays|) + (if Retries(s, e) then 1 else 0)
  }

  /** What the event adds to the loop's queue: calls from other threads, and the reset of a channel taken down. */
  function Pushes(s: State, e: Event): seq<Functor> {
    if e.Start? && !e.inLoop then [StartFunctor]
    else if e == Stop(false) then [StopFunctor]
    else if Broken(s, e) || CutShort(s, e) || Established(s, e) then [ResetFunctor]
    else []
  }

  predicate QueueStep(s: State, e: Event, t: State) {
    t.functors == (if e.RunFunctor? && Effective(s, e) then s.functors[1..] else s.functors) + Pushes(s, e)
  }

  ghost predicate Outcome(s: State, e: Event) {
    var t := Next(s, e);
    LedgerStep(s, e, t) && PhaseStep(s, e, t) && RetryStep(s, e, t) && QueueStep(s, e, t)
  }

  lemma StartOutcome(s: State, e: Event)
    requires ResetInvariant(s) && e.Start?
    ensures Outcome(s, e)
  {
  }

  lemma StopOutcome(s: State, e: Event)
    requires ResetInvariant(s) && e.Stop?
    ensures Outcome(s, e)
  {
  }

  lemma RestartOutcome(s: State, e: Event)
    requires ResetInvariant(s) && e.RestartCall?
    ensures Outcome(s, e)
  {
  }

  lemma TimerOutcome(s: State, e: Event)
    requires ResetInvariant(s) && e.Timer?
    ensures Outcome(s, e)
  {
  }

  lemma FunctorOutcome(s: State, e: Event)
    requires ResetInvariant(s) && e.RunFunctor?
    ensures Outcome(s, e)
  {
  }

  lemma DispatchOutcome(s: State, e: Event)
    requires ResetInvariant(s) && e.Dispatch?
    ensures Outcome(s, e)
  {
  }

  lemma StepOutcome(s: State, e: Event)
    requires Invariant(s)
    ensures Outcome(s, e)
  {
    assert ResetInvariant(s);
    hide ResetInvariant, Outcome, Invariant;
    match e
    case Start(_, _) => StartOutcome(s, e);
    case Stop(_) => StopOutcome(s, e);
    case RestartCall(_) => RestartOutcome(s, e);
    case RunFunctor(_) => FunctorOutcome(s, e);
    case Timer(_) => TimerOutcome(s, e);
    case Dispatch(_, _, _, _) => DispatchOutcome(s, e);
  }

  // ---------- whole runs ----------

  type Happening = (State, Event) -> bool

  /** Some event of the run is of this kind, in the state that it finds. */
  ghost predicate Occurs(events: seq<Event>, what: Happening) {
    exists i :: 0 <= i < |events| && what(After(INIT, events[..i]), events[i])
  }

  ghost function Times(events: seq<Event>, what: Happening): nat {
    if events == [] then 0
    else
      var n := |events| - 1;
      Times(events[..n], what) + (if what(After(INIT, events[..n]), events[n]) then 1 else 0)
  }

  /** Of the events that set or clear, the last one sets. */
  ghost predicate Since(events: seq<Event>, sets: Happening, clears: Happening) {
    && events != []
    && var n := |events| - 1; var s := After(INIT, events[..n]);
       sets(s, events[n]) || (!clears(s, events[n]) && Since(events[..n], sets, clears))
  }

  lemma OccursLast(events: seq<Event>, what: Happening)
    requires events != []
    ensures var n := |events| - 1;
      Occurs(events, what) <==> Occurs(events[..n], what) || what(After(INIT, events[..n]), events[n])
  {
    hide After;
    var n := |events| - 1;
    if Occurs(events, what) {
      var i :| 0 <= i < |events| && what(After(INIT, events[..i]), events[i]);
      if i < n {
        assert events[..n][..i] == events[..i] && events[..n][i] == events[i];
      }
    }
    if Occurs(events[..n], what) {
      var i :| 0 <= i < n && what(After(INIT, events[..n][..i]), events[..n][i]);
      assert events[..n][..i] == events[..i] && events[..n][i] == events[i];
    }
  }

  lemma LastOutcome(events: seq<Event>)
    requires events != []
    ensures var n := |events| - 1; var s, t := After(INIT, events[..n]), After(INIT, events);
      && LedgerStep(s, events[n], t) && PhaseStep(s, events[n], t)
      && RetryStep(s, events[n], t) && QueueStep(s, events[n], t)
  {
    hide Invariant, LedgerStep, PhaseStep, RetryStep, QueueStep, Next;
    var n := |events| - 1;
    RunsAreSafe(events[..n]);
    StepOutcome(After(INIT, events[..n]), events[n]);
  }

  /**
   * Main result: a descriptor is handed over if and only if it was in the connecting channel when that reported that
   * its socket can be written, with no error, SO_ERROR 0 and no self-connection, while a connection was wanted.
   */
  lemma {:induction false} HandedIff(events: seq<Event>, fd: nat)
    ensures fd in After(INIT, events).handed
       <==> Occurs(events, (s: State, e: Event) => Delivers(s, e) && s.channel == Channel(fd))
  {
    hide Delivers, GivesUp, Refused, Opens, PhaseStep, RetryStep, QueueStep, After;
    if events != [] {
      HandedIff(events[..|events| - 1], fd);
      LastOutcome(events);
      OccursLast(events, (s: State, e: Event) => Delivers(s, e) && s.channel == Channel(fd));
    } else {
      NothingYet();
    }
  }

  /** Main result: and it is closed if and only if its attempt was refused at once, or given up when under way. */
  lemma {:induction false} ClosedIff(events: seq<Event>, fd: nat)
    ensures fd in After(INIT, events).closed
       <==> Occurs(events, (s: State, e: Event) =>
              (GivesUp(s, e) && s.channel == Channel(fd)) || (Refused(s, e) && s.nextFd == fd))
  {
    hide Delivers, GivesUp, Refused, Opens, PhaseStep, RetryStep, QueueStep, After;
    if events != [] {
      ClosedIff(events[..|events| - 1], fd);
      LastOutcome(events);
      OneAttempt(After(INIT, events[..|events| - 1]), events[|events| - 1]);
      OccursLast(events, (s: State, e: Event) =>
        (GivesUp(s, e) && s.channel == Channel(fd)) || (Refused(s, e) && s.nextFd == fd));
    } else {
      NothingYet();
    }
  }

  /** Main result: a descriptor was made if and only if an attempt was made with it. */
  lemma {:induction false} MadeIff(events: seq<Event>, fd: nat)
    ensures fd < After(INIT, events).nextFd
       <==> Occurs(events, (s: State, e: Event) => (Opens(s, e) || Refused(s, e)) && s.nextFd == fd)
  {
    hide Delivers, GivesUp, Refused, Opens, PhaseStep, RetryStep, QueueStep, After;
    if events != [] {
      MadeIff(events[..|events| - 1], fd);
      LastOutcome(events);
      OccursLast(events, (s: State, e: Event) => (Opens(s, e) || Refused(s, e)) && s.nextFd == fd);
    } else {
      NothingYet();
    }
  }

  lemma OneAttempt(s: State, e: Event)
    ensures !(GivesUp(s, e) && Refused(s, e))
  {
  }

  lemma NothingYet()
    ensures After(INIT, []) == INIT
  {
  }

  /**
   * Main result: the connector is connecting since an attempt got under way, until it was established or given up;
   * connected since one was established, until the next restart; and a connection is wanted since the last start or
   * restart, until the next stop.
   */
  lemma {:induction false} PhasesSince(events: seq<Event>)
    ensures var t := After(INIT, events);
      && (t.phase == Connecting <==>
            Since(events, Opens, (s: State, e: Event) => Established(s, e) || GivesUp(s, e)))
      && (t.phase == Connected <==>
            Since(events, Established, (s: State, e: Event) => e.RestartCall? && Effective(s, e)))
      && (t.connect <==>
            Since(events, (s: State, e: Event) => Effective(s, e) && (e.Start? || e.RestartCall?),
                  (s: State, e: Event) => Effective(s, e) && e.Stop?))
  {
    hide Opens, Established, GivesUp, Effective, LedgerStep, RetryStep, QueueStep, After;
    if events != [] {
      PhasesSince(events[..|events| - 1]);
      LastOutcome(events);
    } else {
      NothingYet();
    }
  }

  /**
   * Main result: the armed timers are those of failed but wanted attempts, less those that have fired; the back-off
   * has grown by one step for each of them since the last restart.
   */
  lemma {:induction false} RetriesCounted(events: seq<Event>)
    ensures var t := After(INIT, events);
      && t.timers + Times(events, (s: State, e: Event) => e.Timer? && Effective(s, e)) == Times(events, Retries)
      && |t.delays| == RetriesSinceRestart(events)
  {
    hide Retries, Effective, LedgerStep, PhaseStep, QueueStep, After;
    if events != [] {
      RetriesCounted(events[..|events| - 1]);
      LastOutcome(events);
    } else {
      NothingYet();
    }
  }

  ghost function RetriesSinceRestart(events: seq<Event>): nat {
    if events == [] then 0
    else
      var n := |events| - 1; var s := After(INIT, events[..n]);
      (if events[n].RestartCall? && Effective(s, events[n]) then 0 else RetriesSinceRestart(events[..n]))
        + (if Retries(s, events[n]) then 1 else 0)
  }

  ghost function Pushed(events: seq<Event>): seq<Functor> {
    if events == [] then []
    else
      var n := |events| - 1;
      Pushed(events[..n]) + Pushes(After(INIT, events[..n]), events[n])
  }

  /** Main result: the loop's queue is what was added to it, less the functors run, first in, first out. */
  lemma {:induction false} FunctorsQueued(events: seq<Event>)
    ensures var ran := Times(events, (s: State, e: Event) => e.RunFunctor? && Effective(s, e));
      ran <= |Pushed(events)| && After(INIT, events).functors == Pushed(events)[ran..]
  {
    hide Pushes, Effective, LedgerStep, PhaseStep, RetryStep, QueueStep, After;
    if events != [] {
      var n := |events| - 1;
      var s, e, what := After(INIT, events[..n]), events[n], (s: State, e: Event) => e.RunFunctor? && Effective(s, e);
      FunctorsQueued(events[..n]);
      LastOutcome(events);
      QueueMoves(s, e, After(INIT, events), Pushed(events[..n]), Times(events[..n], what));
    } else {
      NothingYet();
    }
  }

  lemma QueueMoves(s: State, e: Event, t: State, pushed: seq<Functor>, ran: nat)
    requires ran <= |pushed| && s.functors == pushed[ran..] && QueueStep(s, e, t)
    ensures var all, next := pushed + Pushes(s, e), ran + (if e.RunFunctor? && Effective(s, e) then 1 else 0);
      next <= |all| && t.functors == all[next..]
  {
    hide Pushes, Apply;
    assert e.RunFunctor? && Effective(s, e) ==> s.functors != [];
  }
}
