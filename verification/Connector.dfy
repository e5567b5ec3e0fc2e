/**
 * The connector object, whose methods carry out the steps of ConnectorSteps in place. The functors and timers it has
 * registered with the loop are fields here; RunFunctor, Timer and Dispatch are the loop calling back.
 */
module Connector {
  import opened Arithmetic
  import opened Steps = ConnectorSteps

  class Connector {
    var connect: bool
    var phase: Phase
    var channel: Channel
    var retryDelayMs: nat
    var functors: seq<Functor>
    var timers: nat
    ghost var delays: seq<nat>
    ghost var nextFd: nat
    ghost var handed: seq<nat>
    ghost var closed: seq<nat>

    ghost function Value(): State
      reads this
    {
      State(connect, phase, channel, retryDelayMs, functors, timers, delays, nextFd, handed, closed)
    }

    constructor ()
      ensures Value() == INIT
    {
      connect, phase, channel, retryDelayMs := false, Disconnected, NoChannel, INIT_RETRY_DELAY_MS;
      functors, timers, delays, nextFd, handed, closed := [], 0, [], 0, [], [];
    }

    /** runInLoop calls at once in the loop thread and queues from any other. */
    method Start(inLoop: bool, sockfd: nat, errno: Errno)
      requires sockfd == nextFd && Apply(Value(), Event.Start(inLoop, errno)).Ok?
      modifies this
      ensures Value() == Apply(old(Value()), Event.Start(inLoop, errno)).state
    {
      connect := true;
      if inLoop {
        StartInLoop(sockfd, errno);
      } else {
        functors := functors + [StartFunctor];
      }
    }

    method Stop(inLoop: bool)
      requires Apply(Value(), Event.Stop(inLoop)).Ok?
      modifies this
      ensures Value() == Apply(old(Value()), Event.Stop(inLoop)).state
    {
      connect := false;
      if inLoop {
        StopInLoop();
      } else {
        functors := functors + [StopFunctor];
      }
    }

    method Retry(sockfd: nat)
      modifies this
      ensures Value() == Steps.Retry(old(Value()), sockfd)
    {
      closed := closed + [sockfd];
      phase := Disconnected;
      if connect {
        timers, delays := timers + 1, delays + [retryDelayMs];
        retryDelayMs := Min(retryDelayMs * 2, MAX_RETRY_DELAY_MS);
      }
    }

    method RemoveAndResetChannel() returns (sockfd: nat)
      requires channel.Channel?
      modifies this`functors
      ensures Value() == Steps.RemoveAndResetChannel(old(Value())) && sockfd == channel.fd
    {
      functors := functors + [ResetFunctor];
      sockfd := channel.fd;
    }

    method StartConnecting(sockfd: nat)
      requires Steps.StartConnecting(Value(), sockfd).Ok?
      modifies this
      ensures Value() == Steps.StartConnecting(old(Value()), sockfd).state
    {
      phase := Connecting;
      channel := Channel(sockfd);
    }

    /** sockfd is the new descriptor, errno the outcome of connect() on it. */
    method Connect(sockfd: nat, errno: Errno)
      requires sockfd == nextFd && Steps.Connect(Value(), errno).Ok?
      modifies this
      ensures Value() == Steps.Connect(old(Value()), errno).state
      ensures if errno in {Success, EINPROGRESS, EINTR, EISCONN} then phase == Connecting && channel == Channel(sockfd)
              else channel == old(channel) && closed == old(closed) + [sockfd]
      ensures timers > old(timers)
         <==> connect && errno in {EAGAIN, EADDRINUSE, EADDRNOTAVAIL, ECONNREFUSED, ENETUNREACH}
    {
      nextFd := nextFd + 1;
      match errno {
        case Success | EINPROGRESS | EINTR | EISCONN => StartConnecting(sockfd);
        case EAGAIN | EADDRINUSE | EADDRNOTAVAIL | ECONNREFUSED | ENETUNREACH => Retry(sockfd);
        case EACCES | EPERM | EAFNOSUPPORT | EALREADY | EBADF | EFAULT | ENOTSOCK => closed := closed + [sockfd];
        case Other(_) => closed := closed + [sockfd];
      }
    }

    method StartInLoop(sockfd: nat, errno: Errno)
      requires sockfd == nextFd && Steps.StartInLoop(Value(), errno).Ok?
      modifies this
      ensures Value() == Steps.StartInLoop(old(Value()), errno).state
    {
      if connect {
        Connect(sockfd, errno);
      }
    }

    method StopInLoop()
      requires Steps.StopInLoop(Value()).Ok?
      modifies this
      ensures Value() == Steps.StopInLoop(old(Value())).state
    {
      if phase == Connecting {
        phase := Disconnected;
        var sockfd := RemoveAndResetChannel();
        Retry(sockfd);
      }
    }

    method Restart(sockfd: nat, errno: Errno)
      requires sockfd == nextFd && Steps.Restart(Value(), errno).Ok?
      modifies this
      ensures Value() == Steps.Restart(old(Value()), errno).state
    {
      phase := Disconnected;
      retryDelayMs, delays := INIT_RETRY_DELAY_MS, [];
      connect := true;
      StartInLoop(sockfd, errno);
    }

    method HandleWrite(soError: nat, selfConnect: bool)
      requires Steps.HandleWrite(Value(), soError, selfConnect).Ok?
      modifies this
      ensures Value() == Steps.HandleWrite(old(Value()), soError, selfConnect).state
      ensures old(phase) == Connecting ==> (phase == Connected <==> soError == 0 && !selfConnect)
      ensures handed == if old(phase) == Connecting && soError == 0 && !selfConnect && connect
                        then old(handed) + [old(channel).fd] else old(handed)
    {
      if phase == Connecting {
        var sockfd := RemoveAndResetChannel();
        if soError != 0 {
          Retry(sockfd);
        } else if selfConnect {
          Retry(sockfd);
        } else {
          phase := Connected;
          if connect {
            handed := handed + [sockfd];
          } else {
            closed := closed + [sockfd];
          }
        }
      } else {
        assert phase == Disconnected;
      }
    }

    method HandleError()
      requires Steps.HandleError(Value()).Ok?
      modifies this
      ensures Value() == Steps.HandleError(old(Value())).state
    {
      assert phase == Connecting;
      var sockfd := RemoveAndResetChannel();
      Retry(sockfd);
    }

    /**
     * The deferred functor, as RunFunctor calls it after taking the reset from the queue of the state before. In a
     * reachable state it finds a channel that is not connecting, and leaves no other reset behind.
     */
    method ResetChannel(ghost before: State)
      requires before.functors != [] && before.functors[0] == ResetFunctor
      requires Value() == before.(functors := before.functors[1..])
      modifies this`channel
      ensures forall errno :: Apply(before, Event.RunFunctor(errno)) == Ok(Value())
      ensures Invariant(before) ==>
        && old(channel).Channel? && phase != Connecting && Count(functors, ResetFunctor) == 0
        && Invariant(Value())
    {
      channel := NoChannel;
      if Invariant(before) {
        FunctorKeeps(before, Success);
      }
    }

    /** The loop runs the functor at the head of its queue. */
    method RunFunctor(sockfd: nat, errno: Errno)
      requires sockfd == nextFd && functors != [] && Apply(Value(), Event.RunFunctor(errno)).Ok?
      modifies this
      ensures Value() == Apply(old(Value()), Event.RunFunctor(errno)).state
    {
      var functor := functors[0];
      functors := functors[1..];
      match functor {
        case StartFunctor => StartInLoop(sockfd, errno);
        case StopFunctor => StopInLoop();
        case ResetFunctor => ResetChannel(old(Value()));
      }
    }

    /** The loop fires one of the retry timers. */
    method Timer(sockfd: nat, errno: Errno)
      requires sockfd == nextFd && timers > 0 && Apply(Value(), Event.Timer(errno)).Ok?
      modifies this
      ensures Value() == Apply(old(Value()), Event.Timer(errno)).state
    {
      timers := timers - 1;
      StartInLoop(sockfd, errno);
    }

    /** The channel reports its events: the error callback comes before the write callback. */
    method Dispatch(error: bool, write: bool, soError: nat, selfConnect: bool)
      requires channel.Channel? && Apply(Value(), Event.Dispatch(error, write, soError, selfConnect)).Ok?
      modifies this
      ensures Value() == Apply(old(Value()), Event.Dispatch(error, write, soError, selfConnect)).state
    {
      if error {
        HandleError();
      }
      if write {
        HandleWrite(soError, selfConnect);
      }
    }
  }
}
